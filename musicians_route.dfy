/**
 * `/api/musicians`: GET lists the collection by name; POST is an upsert keyed
 * by the trimmed (name, instrument) pair. The upsert goes through
 * `findOneAndUpdate`, which does not run the schema's validators, so only the
 * route's own guard on the untrimmed values stands between a request and the
 * collection.
 */
module MusiciansRoute {
  import opened Wrappers
  import opened Text
  import opened Schema
  import opened Http
  import opened Sorting
  import opened MusicianModel

  /** `.sort({ name: 1 })`, and the page's `localeCompare` on names. */
  predicate ByNameLe(a: Musician, b: Musician) {
    NameLe(a.name, b.name)
  }

  lemma ByNameTotalPreorder()
    ensures TotalPreorder(ByNameLe)
  {
    forall a: Musician, b: Musician ensures ByNameLe(a, b) || ByNameLe(b, a) {
      NameLeTotal(a.name, b.name);
    }
    forall a: Musician, b: Musician, c: Musician | ByNameLe(a, b) && ByNameLe(b, c)
      ensures ByNameLe(a, c)
    {
      NameLeTransitive(a.name, b.name, c.name);
    }
  }

  /** GET's listing: every musician, ordered by name. */
  lemma ListingSortedAndComplete(ms: seq<Musician>)
    ensures SortedBy(SortBy(ms, ByNameLe), ByNameLe)
    ensures multiset(SortBy(ms, ByNameLe)) == multiset(ms)
  {
    ByNameTotalPreorder();
    SortBySorted(ms, ByNameLe);
  }

  /** The first document at or after `k` holding the pair: the document `findOneAndUpdate` matches. */
  function FindPairFrom(ms: seq<Musician>, name: string, instrument: string, k: nat): (r: Option<nat>)
    requires k <= |ms|
    ensures r.None? <==> forall j :: k <= j < |ms| ==> !(ms[j].name == name && ms[j].instrument == instrument)
    ensures r.Some? ==> k <= r.value < |ms| && ms[r.value].name == name && ms[r.value].instrument == instrument
    ensures r.Some? ==> forall j :: k <= j < r.value ==> !(ms[j].name == name && ms[j].instrument == instrument)
    decreases |ms| - k
  {
    if k == |ms| then None
    else if ms[k].name == name && ms[k].instrument == instrument then Some(k)
    else FindPairFrom(ms, name, instrument, k + 1)
  }

  function FindPair(ms: seq<Musician>, name: string, instrument: string): (r: Option<nat>)
    ensures r.None? <==> !HasPair(ms, name, instrument)
    ensures r.Some? ==> r.value < |ms| && ms[r.value].name == name && ms[r.value].instrument == instrument
  {
    FindPairFrom(ms, name, instrument, 0)
  }

  /** The collection, the next fresh `_id` and the answer after one POST. */
  datatype PostOutcome = PostOutcome(docs: seq<Musician>, nextId: nat, resp: Response<Musician>)

  const RequiredMessage: string := "Name and instrument are required"

  /** POST, as a function of the collection before it. */
  function PostResult(ms: seq<Musician>, nextId: nat, name: Option<string>, instrument: Option<string>): (o: PostOutcome)
    // the guard is on the raw values: absent or empty is refused and nothing is written
    ensures !(Filled(name) && Filled(instrument)) ==>
      o == PostOutcome(ms, nextId, Response(400, Error(RequiredMessage)))
    // an existing pair is returned and the collection is unchanged
    ensures Filled(name) && Filled(instrument) && HasPair(ms, Trim(name.value), Trim(instrument.value)) ==>
      && o.docs == ms && o.nextId == nextId
      && o.resp.status == 201 && o.resp.payload.Data?
      && o.resp.payload.value in ms
      && o.resp.payload.value.name == Trim(name.value)
      && o.resp.payload.value.instrument == Trim(instrument.value)
    // otherwise exactly one document with the trimmed values is inserted
    ensures Filled(name) && Filled(instrument) && !HasPair(ms, Trim(name.value), Trim(instrument.value)) ==>
      var m := Musician(nextId, Trim(name.value), Trim(instrument.value));
      o == PostOutcome(ms + [m], nextId + 1, Response(201, Data(m)))
  {
    if !Filled(name) || !Filled(instrument) then
      PostOutcome(ms, nextId, Response(400, Error(RequiredMessage)))
    else
      var n := Trim(name.value);
      var i := Trim(instrument.value);
      match FindPair(ms, n, i)
      case Some(k) => PostOutcome(ms, nextId, Response(201, Data(ms[k])))
      case None =>
        var m := Musician(nextId, n, i);
        PostOutcome(ms + [m], nextId + 1, Response(201, Data(m)))
  }

  /** The unique index holds after every POST. */
  lemma PostKeepsUnique(ms: seq<Musician>, nextId: nat, name: Option<string>, instrument: Option<string>)
    requires UniquePairs(ms)
    ensures UniquePairs(PostResult(ms, nextId, name, instrument).docs)
  {
    var o := PostResult(ms, nextId, name, instrument);
    if Filled(name) && Filled(instrument) && !HasPair(ms, Trim(name.value), Trim(instrument.value)) {
      var m := Musician(nextId, Trim(name.value), Trim(instrument.value));
      assert IndexInsert(ms, m) == Some(o.docs);
    }
  }

  /** Posting the same pair again changes nothing and answers with the same record. */
  lemma {:induction false} PostIdempotent(ms: seq<Musician>, nextId: nat, name: Option<string>, instrument: Option<string>)
    ensures var o := PostResult(ms, nextId, name, instrument);
            PostResult(o.docs, o.nextId, name, instrument) == o
  {
    var o := PostResult(ms, nextId, name, instrument);
    if Filled(name) && Filled(instrument) {
      var n := Trim(name.value);
      var i := Trim(instrument.value);
      match FindPair(ms, n, i)
      case Some(k) =>
      case None =>
        var m := Musician(nextId, n, i);
        assert o.docs == ms + [m];
        assert o.docs[|ms|] == m;
        var k := FindPair(o.docs, n, i);
        assert k.Some?;
        assert forall j :: 0 <= j < |ms| ==> o.docs[j] == ms[j];
        assert k.value == |ms|;
    }
  }

  /** Surrounding white space does not make a different request: the same record and the same collection. */
  lemma WhitespaceVariant(ms: seq<Musician>, nextId: nat, w1: string, n: string, w2: string,
                          w3: string, i: string, w4: string)
    requires AllWhite(w1) && AllWhite(w2) && AllWhite(w3) && AllWhite(w4)
    requires n != "" && i != ""
    ensures PostResult(ms, nextId, Some(w1 + n + w2), Some(w3 + i + w4)) == PostResult(ms, nextId, Some(n), Some(i))
  {
    var name, instrument := w1 + n + w2, w3 + i + w4;
    TrimPadded(w1, n, w2);
    TrimPadded(w3, i, w4);
    assert |name| >= |n| && |instrument| >= |i|;
    assert Filled(Some(name)) && Filled(Some(instrument));
    assert Trim(name) == Trim(n) && Trim(instrument) == Trim(i);
  }

  /** A request whose name is only white space passes the guard and stores an empty name. */
  lemma BlankNameStored(ms: seq<Musician>, nextId: nat, instrument: string)
    requires Trim(instrument) != "" && !HasPair(ms, "", Trim(instrument))
    ensures PostResult(ms, nextId, Some(" "), Some(instrument)).docs
            == ms + [Musician(nextId, "", Trim(instrument))]
  {
    assert AllWhite(" ");
  }

  /** The musician collection. */
  class MusicianStore {
    var docs: seq<Musician>
    var nextId: nat

    /** The unique index holds, and every `_id` is below the next fresh one. */
    ghost predicate Valid()
      reads this
    {
      && UniquePairs(docs)
      && forall j :: 0 <= j < |docs| ==> docs[j].id < nextId
    }

    constructor()
      ensures Valid() && docs == [] && nextId == 0
    {
      docs := [];
      nextId := 0;
    }

    /** GET: the whole collection ordered by name. */
    method Get() returns (resp: Response<seq<Musician>>)
      ensures resp.status == 200 && resp.payload.Data?
      ensures SortedBy(resp.payload.value, ByNameLe)
      ensures multiset(resp.payload.value) == multiset(docs)
    {
      ListingSortedAndComplete(docs);
      resp := Response(200, Data(SortBy(docs, ByNameLe)));
    }

    /** POST: the guard, then the upsert. */
    method Post(name: Option<string>, instrument: Option<string>) returns (resp: Response<Musician>)
      requires Valid()
      modifies this
      ensures Valid()
      ensures PostOutcome(docs, nextId, resp) == PostResult(old(docs), old(nextId), name, instrument)
    {
      if !Filled(name) || !Filled(instrument) {
        return Response(400, Error(RequiredMessage));
      }
      var n := Trim(name.value);
      var i := Trim(instrument.value);
      var found := FindPair(docs, n, i);
      if found.Some? {
        resp := Response(201, Data(docs[found.value]));
      } else {
        var m := Musician(nextId, n, i);
        PostKeepsUnique(docs, nextId, name, instrument);
        docs := docs + [m];
        nextId := nextId + 1;
        resp := Response(201, Data(m));
      }
    }
  }
}
