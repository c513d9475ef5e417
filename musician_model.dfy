/**
 * The Musician schema and its unique compound index on (name, instrument).
 */
module MusicianModel {
  import opened Wrappers
  import opened Text
  import opened Schema

  datatype Musician = Musician(id: nat, name: string, instrument: string)

  /** `new Musician({ name, instrument })` validated: both required, both trimmed. */
  function ValidateMusician(name: Option<string>, instrument: Option<string>, id: nat): (r: Option<Musician>)
    ensures r.Some? <==> Filled(Trimmed(name)) && Filled(Trimmed(instrument))
    ensures r.Some? ==> r.value == Musician(id, Trim(name.value), Trim(instrument.value))
  {
    var n := Trimmed(name);
    var i := Trimmed(instrument);
    if Filled(n) && Filled(i) then Some(Musician(id, n.value, i.value)) else None
  }

  predicate SamePair(a: Musician, b: Musician) {
    a.name == b.name && a.instrument == b.instrument
  }

  /** The unique index: no two documents share a (name, instrument) pair. */
  predicate UniquePairs(ms: seq<Musician>) {
    forall i, j :: 0 <= i < j < |ms| ==> !SamePair(ms[i], ms[j])
  }

  /** Whether some document already holds the pair. */
  predicate HasPair(ms: seq<Musician>, name: string, instrument: string) {
    exists i :: 0 <= i < |ms| && ms[i].name == name && ms[i].instrument == instrument
  }

  /**
   * An insert checked by the unique index: rejected with a duplicate-key
   * error (None) when the pair is taken, otherwise appended.
   */
  function IndexInsert(ms: seq<Musician>, m: Musician): (r: Option<seq<Musician>>)
    ensures r.None? <==> HasPair(ms, m.name, m.instrument)
    ensures r.Some? ==> r.value == ms + [m]
    ensures UniquePairs(ms) && r.Some? ==> UniquePairs(r.value)
  {
    if exists i :: 0 <= i < |ms| && SamePair(ms[i], m) then None
    else
      assert forall i :: 0 <= i < |ms| ==> (ms + [m])[i] == ms[i];
      Some(ms + [m])
  }

  /** The index makes a second insert of the same pair fail, whatever the other fields. */
  lemma {:induction false} SecondInsertFails(ms: seq<Musician>, m: Musician, m': Musician)
    requires SamePair(m, m')
    requires IndexInsert(ms, m).Some?
    ensures IndexInsert(IndexInsert(ms, m).value, m').None?
  {
    var ms' := IndexInsert(ms, m).value;
    assert ms'[|ms|] == m;
  }
}
