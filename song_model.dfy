/**
 * The Song schema, with its embedded musician sub-schema (a credit: name and
 * instrument, both required and trimmed). Credits are a denormalised copy,
 * independent of the Musician collection.
 */
module SongModel {
  import opened Wrappers
  import opened Text
  import opened Schema

  datatype CreditInput = CreditInput(name: Option<string>, instrument: Option<string>)

  datatype Credit = Credit(name: string, instrument: string)

  /** A request body: every path may be absent. */
  datatype SongInput = SongInput(
    title: Option<string>,
    description: Option<string>,
    releaseDate: Option<int>,
    musicians: Option<seq<CreditInput>>,
    audioUrl: Option<string>,
    videoUrl: Option<string>,
    artist: Option<string>,
    album: Option<string>,
    genre: Option<string>,
    duration: Option<string>,
    spotifyUrl: Option<string>,
    youtubeUrl: Option<string>,
    soundcloudUrl: Option<string>,
    imageUrl: Option<string>,
    isOriginal: Option<bool>)

  /** A stored song; `createdAt` is its creation timestamp. */
  datatype Song = Song(
    id: nat,
    createdAt: int,
    title: string,
    description: Option<string>,
    releaseDate: Option<int>,
    musicians: seq<Credit>,
    audioUrl: Option<string>,
    videoUrl: Option<string>,
    artist: Option<string>,
    album: Option<string>,
    genre: Option<string>,
    duration: Option<string>,
    spotifyUrl: Option<string>,
    youtubeUrl: Option<string>,
    soundcloudUrl: Option<string>,
    imageUrl: Option<string>,
    isOriginal: bool)

  /** The credit sub-schema accepts an entry whose two paths are non-empty after trimming. */
  predicate CreditAcceptable(c: CreditInput) {
    Filled(Trimmed(c.name)) && Filled(Trimmed(c.instrument))
  }

  /** Casting one entry of the `musicians` array through the credit sub-schema. */
  function ValidateCredit(c: CreditInput): (r: Option<Credit>)
    ensures r.Some? <==> CreditAcceptable(c)
    ensures r.Some? ==> r.value == Credit(Trim(c.name.value), Trim(c.instrument.value))
  {
    var name := Trimmed(c.name);
    var instrument := Trimmed(c.instrument);
    if Filled(name) && Filled(instrument) then Some(Credit(name.value, instrument.value)) else None
  }

  /** What validation demands: a non-blank title and acceptable credits. */
  predicate Acceptable(body: SongInput) {
    && Filled(Trimmed(body.title))
    && (body.musicians.Some? ==> forall i :: 0 <= i < |body.musicians.value| ==> CreditAcceptable(body.musicians.value[i]))
  }

  /** `new Song(body)` followed by `save()`: the stored document, or None when validation fails. */
  function ValidateSong(body: SongInput, id: nat, createdAt: int): (r: Option<Song>)
    ensures r.Some? <==> Acceptable(body)
    ensures body.title.None? ==> r.None?
    ensures r.Some? ==>
      && r.value.id == id && r.value.createdAt == createdAt
      && r.value.title == Trim(body.title.value)
      // credits keep their order; an absent array is stored empty
      && |r.value.musicians| == (if body.musicians.Some? then |body.musicians.value| else 0)
      // trimmed paths
      && r.value.audioUrl == Trimmed(body.audioUrl) && r.value.videoUrl == Trimmed(body.videoUrl)
      && r.value.artist == Trimmed(body.artist) && r.value.album == Trimmed(body.album)
      && r.value.genre == Trimmed(body.genre) && r.value.spotifyUrl == Trimmed(body.spotifyUrl)
      && r.value.youtubeUrl == Trimmed(body.youtubeUrl)
      && r.value.soundcloudUrl == Trimmed(body.soundcloudUrl)
      // paths stored as given
      && r.value.description == body.description && r.value.releaseDate == body.releaseDate
      && r.value.duration == body.duration && r.value.imageUrl == body.imageUrl
      // the default
      && r.value.isOriginal == body.isOriginal.GetOr(true)
    ensures r.Some? && body.musicians.Some? ==> forall i :: 0 <= i < |body.musicians.value| ==>
      ValidateCredit(body.musicians.value[i]) == Some(r.value.musicians[i])
  {
    var title := Trimmed(body.title);
    var credits := Traverse(body.musicians.GetOr([]), ValidateCredit);
    if Filled(title) && credits.Some? then
      Some(Song(id, createdAt, title.value, body.description, body.releaseDate, credits.value,
                Trimmed(body.audioUrl), Trimmed(body.videoUrl), Trimmed(body.artist),
                Trimmed(body.album), Trimmed(body.genre), body.duration,
                Trimmed(body.spotifyUrl), Trimmed(body.youtubeUrl), Trimmed(body.soundcloudUrl),
                body.imageUrl, if body.isOriginal.Some? then body.isOriginal.value else true))
    else None
  }
}
