/**
 * The admin "Add New Song" page: the form, the list of credits being typed
 * in, the checks made before sending, and the body of the POST to the songs
 * route. Credits keep the text as typed; the route's schema trims them.
 */
module AdminNewSongPage {
  import opened Wrappers
  import opened Text
  import opened Schema
  import opened Http
  import opened SongModel

  /** A credit as typed into the two small inputs. */
  datatype FormCredit = FormCredit(name: string, instrument: string)

  const EmptyCredit := FormCredit("", "")

  /** The form's state; `releaseDate` is the date input's text. */
  datatype SongForm = SongForm(
    title: string,
    description: string,
    releaseDate: string,
    musicians: seq<FormCredit>,
    audioUrl: string,
    artist: string,
    album: string,
    genre: string,
    spotifyUrl: string,
    youtubeUrl: string,
    soundcloudUrl: string,
    imageUrl: string,
    isOriginal: bool)

  /** The form a new page starts with: every text empty, no credits, an original. */
  const InitialForm := SongForm("", "", "", [], "", "", "", "", "", "", "", "", true)

  /** The test `addMusician` applies: both inputs hold a non-white character. */
  predicate CreditComplete(c: FormCredit) {
    !AllWhite(c.name) && !AllWhite(c.instrument)
  }

  /** Every listed credit passed that test when it was added. */
  predicate CreditsComplete(cs: seq<FormCredit>) {
    forall i :: 0 <= i < |cs| ==> CreditComplete(cs[i])
  }

  /** `prev.musicians.filter((_, i) => i !== index)`, one position at a time. */
  function DropAt(cs: seq<FormCredit>, index: int): (r: seq<FormCredit>)
    ensures 0 <= index < |cs| ==> r == cs[..index] + cs[index + 1..]
    ensures !(0 <= index < |cs|) ==> r == cs
    decreases cs
  {
    if cs == [] then []
    else if index == 0 then cs[1..]
    else
      var rest := DropAt(cs[1..], index - 1);
      assert 0 <= index < |cs| ==> cs[1..][..index - 1] + cs[1..][index..] == cs[1..index] + cs[index + 1..];
      assert 0 <= index < |cs| ==> [cs[0]] + cs[1..index] == cs[..index];
      assert !(0 <= index < |cs|) ==> [cs[0]] + cs[1..] == cs;
      [cs[0]] + rest
  }

  /** Removing a position removes exactly that entry: the others keep their order and nothing else is lost. */
  lemma DropAtRemovesOne(cs: seq<FormCredit>, index: int)
    requires 0 <= index < |cs|
    ensures |DropAt(cs, index)| == |cs| - 1
    ensures forall j :: 0 <= j < index ==> DropAt(cs, index)[j] == cs[j]
    ensures forall j :: index <= j < |cs| - 1 ==> DropAt(cs, index)[j] == cs[j + 1]
    ensures multiset(DropAt(cs, index)) + multiset{cs[index]} == multiset(cs)
  {
    var r := DropAt(cs, index);
    var before, after := cs[..index], cs[index + 1..];
    assert r == before + after;
    forall j | 0 <= j < index ensures r[j] == cs[j] {
      assert r[j] == before[j];
    }
    forall j | index <= j < |cs| - 1 ensures r[j] == cs[j + 1] {
      assert r[j] == after[j - index];
    }
    assert cs == before + [cs[index]] + after;
  }

  /** Removing keeps the credits complete. */
  lemma DropAtKeepsComplete(cs: seq<FormCredit>, index: int)
    requires CreditsComplete(cs)
    ensures CreditsComplete(DropAt(cs, index))
  {
    if 0 <= index < |cs| {
      DropAtRemovesOne(cs, index);
    }
  }

  /** A credit as the JSON body carries it: both paths present, as typed. */
  function AsCreditInput(c: FormCredit): (ci: CreditInput)
    ensures CreditAcceptable(ci) <==> CreditComplete(c)
  {
    CreditInput(Some(c.name), Some(c.instrument))
  }

  /**
   * The body of the POST: every text of the form as it stands, and the
   * release date already converted (`None` is `null`). The form has no video
   * or duration inputs, so those paths are absent.
   */
  function SongBody(form: SongForm, releaseDate: Option<int>): (body: SongInput)
    ensures body.title == Some(form.title) && body.audioUrl == Some(form.audioUrl)
    ensures body.musicians.Some? && |body.musicians.value| == |form.musicians|
    ensures forall i :: 0 <= i < |form.musicians| ==> body.musicians.value[i] == AsCreditInput(form.musicians[i])
    ensures body.releaseDate == releaseDate && body.isOriginal == Some(form.isOriginal)
    ensures body.videoUrl.None? && body.duration.None?
    ensures body.description == Some(form.description) && body.artist == Some(form.artist)
    ensures body.album == Some(form.album) && body.genre == Some(form.genre)
    ensures body.spotifyUrl == Some(form.spotifyUrl) && body.youtubeUrl == Some(form.youtubeUrl)
    ensures body.soundcloudUrl == Some(form.soundcloudUrl) && body.imageUrl == Some(form.imageUrl)
  {
    SongInput(Some(form.title), Some(form.description), releaseDate,
              Some(seq(|form.musicians|, i requires 0 <= i < |form.musicians| => AsCreditInput(form.musicians[i]))),
              Some(form.audioUrl), None, Some(form.artist), Some(form.album), Some(form.genre), None,
              Some(form.spotifyUrl), Some(form.youtubeUrl), Some(form.soundcloudUrl), Some(form.imageUrl),
              Some(form.isOriginal))
  }

  /** A form with a non-blank title and complete credits passes the schema's checks. */
  lemma SentFormAccepted(form: SongForm, releaseDate: Option<int>)
    requires !AllWhite(form.title) && CreditsComplete(form.musicians)
    ensures Acceptable(SongBody(form, releaseDate))
  {
    var body := SongBody(form, releaseDate);
    assert forall i :: 0 <= i < |body.musicians.value| ==> CreditAcceptable(body.musicians.value[i]);
  }

  /**
   * The page's own checks are enough for the schema: a form with a non-blank
   * title and complete credits is stored, with the title and credits trimmed
   * and the checkbox's value as `isOriginal`.
   */
  lemma SentFormStored(form: SongForm, releaseDate: Option<int>, id: nat, createdAt: int)
    requires !AllWhite(form.title) && CreditsComplete(form.musicians)
    ensures var s := ValidateSong(SongBody(form, releaseDate), id, createdAt);
      && s.Some? && s.value.title == Trim(form.title)
      && |s.value.musicians| == |form.musicians|
      && (forall i :: 0 <= i < |form.musicians| ==>
            s.value.musicians[i] == Credit(Trim(form.musicians[i].name), Trim(form.musicians[i].instrument)))
      && s.value.isOriginal == form.isOriginal
      && s.value.releaseDate == releaseDate
  {
    var body := SongBody(form, releaseDate);
    SentFormAccepted(form, releaseDate);
    var s := ValidateSong(body, id, createdAt);
    assert s.Some?;
    forall i | 0 <= i < |form.musicians|
      ensures s.value.musicians[i] == Credit(Trim(form.musicians[i].name), Trim(form.musicians[i].instrument))
    {
      assert ValidateCredit(body.musicians.value[i]) == Some(s.value.musicians[i]);
    }
  }

  const TitleRequired: string := "Title is required"
  const AudioRequired: string := "Please upload an audio file"
  const CreateFailed: string := "Failed to create song. Please try again."

  /** The page's state. */
  class PageState {
    var form: SongForm
    var newMusician: FormCredit
    var loading: bool
    var error: Option<string>
    /** Whether the page has navigated back to the song list. */
    var navigated: bool

    /** What `addMusician` lets into the list. */
    ghost predicate Valid()
      reads this
    {
      CreditsComplete(form.musicians)
    }

    constructor()
      ensures Valid()
      ensures form == InitialForm && form.isOriginal
      ensures newMusician == EmptyCredit && !loading && error == None && !navigated
    {
      form := InitialForm;
      newMusician := EmptyCredit;
      loading := false;
      error := None;
      navigated := false;
    }

    /** `addMusician`. */
    method AddMusician()
      requires Valid()
      modifies this
      ensures Valid()
      ensures CreditComplete(old(newMusician)) ==>
        form == old(form).(musicians := old(form.musicians) + [old(newMusician)]) && newMusician == EmptyCredit
      ensures !CreditComplete(old(newMusician)) ==> form == old(form) && newMusician == old(newMusician)
      ensures loading == old(loading) && error == old(error) && navigated == old(navigated)
    {
      if Trim(newMusician.name) != "" && Trim(newMusician.instrument) != "" {
        form := form.(musicians := form.musicians + [newMusician]);
        newMusician := EmptyCredit;
      }
    }

    /** `removeMusician(index)`. */
    method RemoveMusician(index: int)
      requires Valid()
      modifies this
      ensures Valid()
      ensures form == old(form).(musicians := DropAt(old(form.musicians), index))
      ensures newMusician == old(newMusician) && loading == old(loading)
      ensures error == old(error) && navigated == old(navigated)
    {
      var kept := DropAt(form.musicians, index);
      DropAtKeepsComplete(form.musicians, index);
      form := form.(musicians := kept);
    }

    /**
     * `handleSubmit`. `parseDate` stands for `new Date(text)`, with `None`
     * where `toISOString()` throws; `reply` is the reply to the POST.
     * `request` is the body sent, when one is.
     */
    method HandleSubmit(parseDate: string -> Option<int>, reply: Reply<Song>) returns (request: Option<SongInput>)
      requires Valid()
      modifies this
      ensures Valid() && form == old(form) && newMusician == old(newMusician) && !loading
      // the title check comes first, the audio check second; neither sends anything
      ensures Trim(form.title) == "" ==> request.None? && error == Some(TitleRequired) && navigated == old(navigated)
      ensures Trim(form.title) != "" && form.audioUrl == "" ==>
        request.None? && error == Some(AudioRequired) && navigated == old(navigated)
      // a date the browser cannot convert throws inside the try block
      ensures Trim(form.title) != "" && form.audioUrl != "" && form.releaseDate != "" && parseDate(form.releaseDate).None? ==>
        request.None? && error == Some(CreateFailed) && navigated == old(navigated)
      ensures request.Some? <==>
        Trim(form.title) != "" && form.audioUrl != "" && (form.releaseDate == "" || parseDate(form.releaseDate).Some?)
      // the body: an empty date is sent as null
      ensures request.Some? ==>
        request.value == SongBody(form, if form.releaseDate == "" then None else parseDate(form.releaseDate))
      ensures request.Some? ==> (request.value.releaseDate.None? <==> form.releaseDate == "")
      // what was sent passes the schema
      ensures request.Some? ==> Acceptable(request.value)
      ensures request.Some? && reply.Succeeded? ==> navigated && error == None
      ensures request.Some? && !reply.Succeeded? ==> error == Some(CreateFailed) && navigated == old(navigated)
    {
      loading := true;
      error := None;
      request := None;
      if Trim(form.title) == "" {
        error := Some(TitleRequired);
        loading := false;
        return;
      }
      if form.audioUrl == "" {
        error := Some(AudioRequired);
        loading := false;
        return;
      }
      var date: Option<int> := None;
      if form.releaseDate != "" {
        date := parseDate(form.releaseDate);
        if date.None? {
          error := Some(CreateFailed);
          loading := false;
          return;
        }
      }
      request := Some(SongBody(form, date));
      SentFormAccepted(form, date);
      if reply.Succeeded? {
        navigated := true;
      } else {
        error := Some(CreateFailed);
      }
      loading := false;
    }
  }
}
