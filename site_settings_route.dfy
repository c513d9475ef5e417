/**
 * `/api/site-settings`: the settings collection is meant to hold a single
 * document. GET returns the first document, creating it from the schema
 * defaults when there is none; PUT overwrites the first document's six paths,
 * or creates the document when there is none.
 */
module SiteSettingsRoute {
  import opened Wrappers
  import opened Http
  import opened Schema
  import opened SiteSettingsModel

  /** PUT's guard: each of the four text paths present and truthy (not the empty string). */
  predicate PutAccepted(body: SettingsInput) {
    && Filled(body.heroTitle) && Filled(body.heroDescription)
    && Filled(body.aboutSectionText) && Filled(body.aboutPageContent)
  }

  /**
   * The document an accepted PUT leaves behind: the four texts as sent and
   * the two contact paths through their setters, absent when not sent.
   */
  function Applied(body: SettingsInput): SiteSettings
    requires PutAccepted(body)
  {
    SiteSettings(body.heroTitle.value, body.heroDescription.value, body.aboutSectionText.value,
                 body.aboutPageContent.value, EmailNormalised(body.contactEmail),
                 Trimmed(body.contactPhone))
  }

  /** The collection after GET. */
  function AfterGet(docs: seq<SiteSettings>): (r: seq<SiteSettings>)
    ensures r != []
    ensures docs != [] ==> r == docs
    ensures docs == [] ==> r == [SchemaDefaults]
  {
    if docs == [] then [SchemaDefaults] else docs
  }

  /** The collection after PUT. */
  function AfterPut(docs: seq<SiteSettings>, body: SettingsInput): (r: seq<SiteSettings>)
    ensures !PutAccepted(body) ==> r == docs
    ensures PutAccepted(body) ==> r != [] && r[0] == Applied(body) && |r| == if docs == [] then 1 else |docs|
    ensures PutAccepted(body) ==> r[1..] == if docs == [] then [] else docs[1..]
  {
    if !PutAccepted(body) then docs
    else if docs == [] then [Applied(body)]
    else docs[0 := Applied(body)]
  }

  /** An accepted body passes the schema, so the create branch of PUT stores the same document as the update branch. */
  lemma CreateAgreesWithApplied(body: SettingsInput)
    requires PutAccepted(body)
    ensures CreateSettings(body) == Some(Applied(body))
  {
  }

  /** GET changes nothing once a document exists: repeated GETs create at most one document. */
  lemma GetIdempotent(docs: seq<SiteSettings>)
    ensures AfterGet(AfterGet(docs)) == AfterGet(docs)
    ensures |docs| <= 1 ==> |AfterGet(docs)| == 1
  {
  }

  /** After a successful PUT, GET returns what the PUT stored. */
  lemma PutThenGet(docs: seq<SiteSettings>, body: SettingsInput)
    requires PutAccepted(body)
    ensures AfterGet(AfterPut(docs, body))[0] == Applied(body)
  {
  }

  /** Starting from at most one document, any sequence of GETs and PUTs keeps at most one. */
  lemma AtMostOnePreserved(docs: seq<SiteSettings>, body: SettingsInput)
    requires |docs| <= 1
    ensures |AfterGet(docs)| <= 1
    ensures |AfterPut(docs, body)| <= 1
  {
  }

  /** The settings collection. */
  class SettingsStore {
    var docs: seq<SiteSettings>

    constructor(initial: seq<SiteSettings>)
      ensures docs == initial
    {
      docs := initial;
    }

    /** GET: `findOne({})`, or `create({})` when nothing was found. */
    method Get() returns (resp: Response<SiteSettings>)
      modifies this
      ensures docs == AfterGet(old(docs))
      ensures resp == Response(200, Data(docs[0]))
    {
      if docs == [] {
        CreateFromNothing();
        var created := CreateSettings(EmptyInput).value;
        docs := [created];
      }
      resp := Response(200, Data(docs[0]));
    }

    /** PUT: the truthiness guard, then update-in-place or create. */
    method Put(body: SettingsInput) returns (resp: Response<SiteSettings>)
      modifies this
      ensures docs == AfterPut(old(docs), body)
      ensures !PutAccepted(body) ==> resp == Response(400, Error("Missing required fields"))
      ensures PutAccepted(body) ==> resp == Response(200, Data(Applied(body)))
    {
      if !Filled(body.heroTitle) || !Filled(body.heroDescription)
         || !Filled(body.aboutSectionText) || !Filled(body.aboutPageContent)
      {
        return Response(400, Error("Missing required fields"));
      }
      var settings: SiteSettings;
      if docs != [] {
        settings := docs[0];
        settings := settings.(heroTitle := body.heroTitle.value);
        settings := settings.(heroDescription := body.heroDescription.value);
        settings := settings.(aboutSectionText := body.aboutSectionText.value);
        settings := settings.(aboutPageContent := body.aboutPageContent.value);
        // the contact setters run on assignment
        settings := settings.(contactEmail := EmailNormalised(body.contactEmail));
        settings := settings.(contactPhone := Trimmed(body.contactPhone));
        docs := docs[0 := settings];
      } else {
        CreateAgreesWithApplied(body);
        settings := CreateSettings(body).value;
        docs := [settings];
      }
      resp := Response(200, Data(settings));
    }
  }
}
