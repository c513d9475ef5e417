/**
 * Migration 002: `up` creates the settings document with its own default
 * copy when the collection has none; `down` removes every settings document.
 */
module MigrationSiteSettings {
  import opened Wrappers
  import opened SiteSettingsModel
  import opened SiteSettingsRoute

  /** The about-page text `up` writes: three paragraphs, not the schema's one-line default. */
  const UpAboutPageContent: string :=
    "2HTSounds was born from a shared passion for music and the belief that live performance has the power to bring people together. What started as a group of friends jamming in a garage has evolved into a professional band that has entertained audiences across the region."
    + "\n\n"
    + "Our diverse musical backgrounds allow us to cover a wide range of genres, from classic rock and pop hits to contemporary favorites. We pride ourselves on reading the room and adapting our setlist to create the perfect atmosphere for any event."
    + "\n\n"
    + "Whether you're planning a wedding, corporate event, festival, or private party, 2HTSounds brings the energy and professionalism that will make your event truly memorable."

  /** The body `up` passes to `new SiteSettings(...)`. */
  const UpInput: SettingsInput :=
    SettingsInput(Some("2HTSounds"), Some(DefaultHeroDescription), Some(DefaultAboutSectionText),
                  Some(UpAboutPageContent), Some(""), Some(""))

  /** The document `up` stores: empty contact strings, and its own about-page text. */
  const UpDocument: SiteSettings :=
    SiteSettings("2HTSounds", DefaultHeroDescription, DefaultAboutSectionText, UpAboutPageContent,
                 Some(""), Some(""))

  /** `up`'s body passes the schema and is stored as given. */
  lemma UpInputValid()
    ensures CreateSettings(UpInput) == Some(UpDocument)
  {
  }

  /** `up`'s about-page text differs from the schema default; the other three texts agree with it. */
  lemma UpDiffersFromSchemaDefaults()
    ensures UpDocument.aboutPageContent != SchemaDefaults.aboutPageContent
    ensures UpDocument.heroTitle == SchemaDefaults.heroTitle
    ensures UpDocument.heroDescription == SchemaDefaults.heroDescription
    ensures UpDocument.aboutSectionText == SchemaDefaults.aboutSectionText
    ensures UpDocument.contactEmail != SchemaDefaults.contactEmail
  {
    assert |UpAboutPageContent| != |DefaultAboutPageContent|;
  }

  /** The collection after `up`. */
  function AfterUp(docs: seq<SiteSettings>): (r: seq<SiteSettings>)
    ensures docs == [] ==> r == [UpDocument]
    ensures docs != [] ==> r == docs
  {
    if docs == [] then [UpDocument] else docs
  }

  /** Running `up` again changes nothing. */
  lemma UpIdempotent(docs: seq<SiteSettings>)
    ensures AfterUp(AfterUp(docs)) == AfterUp(docs)
    ensures |docs| <= 1 ==> |AfterUp(AfterUp(docs))| == 1
  {
  }

  /** `up` after `down` recreates exactly the one default document, whatever was there. */
  lemma UpAfterDown(docs: seq<SiteSettings>)
    ensures AfterUp(AfterDown(docs)) == [UpDocument]
  {
  }

  /** The collection after `down`. */
  function AfterDown(docs: seq<SiteSettings>): (r: seq<SiteSettings>)
    ensures r == []
  {
    []
  }

  /** `up`: create the document only when the collection is empty. */
  method Up(store: SettingsStore)
    modifies store
    ensures store.docs == AfterUp(old(store.docs))
  {
    if store.docs == [] {
      UpInputValid();
      var created := CreateSettings(UpInput).value;
      store.docs := [created];
    }
  }

  /** `down`: `deleteMany({})`. */
  method Down(store: SettingsStore)
    modifies store
    ensures store.docs == AfterDown(old(store.docs))
  {
    store.docs := [];
  }
}
