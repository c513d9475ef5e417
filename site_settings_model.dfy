/**
 * The SiteSettings schema: the editable marketing copy. Four required text
 * paths with hard-coded defaults, and two optional contact paths with
 * normalising setters.
 */
module SiteSettingsModel {
  import opened Wrappers
  import opened Text
  import opened Schema

  const DefaultHeroTitle: string := "2HTSounds"
  const DefaultHeroDescription: string :=
    "Experience the power of live music with our unique sound and energy"
  const DefaultAboutSectionText: string :=
    "2HTSounds brings together years of musical experience and passion to create unforgettable live performances. Our diverse repertoire spans multiple genres, ensuring there's something for everyone at our shows."
  const DefaultAboutPageContent: string :=
    "Welcome to 2HTSounds! We are a passionate band dedicated to bringing you the best live music experience."

  datatype SettingsInput = SettingsInput(
    heroTitle: Option<string>,
    heroDescription: Option<string>,
    aboutSectionText: Option<string>,
    aboutPageContent: Option<string>,
    contactEmail: Option<string>,
    contactPhone: Option<string>)

  /** The body `{}`. */
  const EmptyInput := SettingsInput(None, None, None, None, None, None)

  datatype SiteSettings = SiteSettings(
    heroTitle: string,
    heroDescription: string,
    aboutSectionText: string,
    aboutPageContent: string,
    contactEmail: Option<string>,
    contactPhone: Option<string>)

  /** A path with `default` and `required`: the default when absent; an empty value fails `required`. */
  function WithDefault(v: Option<string>, default: string): Option<string> {
    match v
    case None => Some(default)
    case Some(s) => if s == "" then None else Some(s)
  }

  /** What validation demands: none of the four text paths is given as the empty string. */
  predicate Acceptable(body: SettingsInput) {
    && body.heroTitle != Some("") && body.heroDescription != Some("")
    && body.aboutSectionText != Some("") && body.aboutPageContent != Some("")
  }

  /** `SiteSettings.create(body)`: defaults filled in, setters applied, `required` checked. */
  function CreateSettings(body: SettingsInput): (r: Option<SiteSettings>)
    ensures r.Some? <==> Acceptable(body)
    ensures r.Some? ==>
      && r.value.heroTitle == body.heroTitle.GetOr(DefaultHeroTitle)
      && r.value.heroDescription == body.heroDescription.GetOr(DefaultHeroDescription)
      && r.value.aboutSectionText == body.aboutSectionText.GetOr(DefaultAboutSectionText)
      && r.value.aboutPageContent == body.aboutPageContent.GetOr(DefaultAboutPageContent)
      && r.value.contactEmail == EmailNormalised(body.contactEmail)
      && r.value.contactPhone == Trimmed(body.contactPhone)
  {
    var heroTitle := WithDefault(body.heroTitle, DefaultHeroTitle);
    var heroDescription := WithDefault(body.heroDescription, DefaultHeroDescription);
    var aboutSectionText := WithDefault(body.aboutSectionText, DefaultAboutSectionText);
    var aboutPageContent := WithDefault(body.aboutPageContent, DefaultAboutPageContent);
    if heroTitle.Some? && heroDescription.Some? && aboutSectionText.Some? && aboutPageContent.Some? then
      Some(SiteSettings(heroTitle.value, heroDescription.value, aboutSectionText.value,
                        aboutPageContent.value, EmailNormalised(body.contactEmail),
                        Trimmed(body.contactPhone)))
    else None
  }

  /** The document `SiteSettings.create({})` stores. */
  const SchemaDefaults: SiteSettings :=
    SiteSettings(DefaultHeroTitle, DefaultHeroDescription, DefaultAboutSectionText,
                 DefaultAboutPageContent, None, None)

  /** Creating from `{}` yields the four defaults and no contact details. */
  lemma CreateFromNothing()
    ensures CreateSettings(EmptyInput) == Some(SchemaDefaults)
    ensures SchemaDefaults.heroTitle == "2HTSounds"
  {
  }
}
