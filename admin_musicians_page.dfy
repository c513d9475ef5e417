/**
 * The admin musicians page: the local list, the add/edit form and deletion.
 * An edit replaces the entry in place; an add appends the returned record and
 * re-sorts by name, without looking for a record with the same `_id`.
 */
module AdminMusiciansPage {
  import opened Wrappers
  import opened Http
  import opened Sorting
  import opened Lists
  import opened MusicianModel
  import opened MusiciansRoute

  datatype MusicianForm = MusicianForm(name: string, instrument: string)

  const EmptyForm := MusicianForm("", "")

  /** The request `handleSubmit` sends with the form as its body. */
  datatype MusicianRequest =
    | UpdateRequest(id: nat, body: MusicianForm)   // PUT /api/musicians/{id}
    | CreateRequest(body: MusicianForm)            // POST /api/musicians

  /** The list after a successful edit: the entry with the id replaced by the returned record. */
  function Replaced(ms: seq<Musician>, id: nat, updated: Musician): (r: seq<Musician>)
    ensures |r| == |ms|
    ensures forall i :: 0 <= i < |ms| ==> r[i] == if ms[i].id == id then updated else ms[i]
  {
    seq(|ms|, i requires 0 <= i < |ms| => if ms[i].id == id then updated else ms[i])
  }

  /** The list after a successful add. */
  function Appended(ms: seq<Musician>, created: Musician): (r: seq<Musician>)
    ensures multiset(r) == multiset(ms) + multiset{created}
    ensures SortedBy(r, ByNameLe)
  {
    ListingSortedAndComplete(ms + [created]);
    SortBy(ms + [created], ByNameLe)
  }

  /** An add whose reply is a record already listed (the upsert found the pair) lists it twice. */
  lemma AppendDuplicates(ms: seq<Musician>, created: Musician)
    requires created in ms
    ensures multiset(Appended(ms, created))[created] == multiset(ms)[created] + 1 >= 2
  {
  }

  /** `m._id !== id`. */
  function OtherThan(id: nat): Musician -> bool {
    (m: Musician) => m.id != id
  }

  /** The list after a successful delete: exactly the entries with another id, in their order. */
  function WithoutMusician(ms: seq<Musician>, id: nat): (r: seq<Musician>)
    ensures forall m :: m in r <==> m in ms && m.id != id
  {
    Filter(ms, OtherThan(id))
  }

  /** Deleting from a concatenation deletes from each part, so the rest keep their order. */
  lemma DeleteKeepsOrder(a: seq<Musician>, b: seq<Musician>, id: nat)
    ensures WithoutMusician(a + b, id) == WithoutMusician(a, id) + WithoutMusician(b, id)
  {
    FilterConcat(a, b, OtherThan(id));
  }

  /** `data.error || fallback`. */
  function ErrorText(error: string, fallback: string): (t: string)
    ensures error != "" ==> t == error
    ensures error == "" ==> t == fallback
  {
    if error != "" then error else fallback
  }

  const UpdateFailed: string := "Failed to update musician"
  const AddFailed: string := "Failed to add musician"
  const RequestFailed: string := "Request failed"
  const DeleteFailed: string := "Failed to delete musician"

  /** The page's state. */
  class PageState {
    var musicians: seq<Musician>
    var editingId: Option<nat>
    var form: MusicianForm
    var error: Option<string>
    var saving: bool
    var alert: Option<string>

    constructor(loaded: seq<Musician>)
      ensures musicians == loaded && editingId == None && form == EmptyForm
      ensures error == None && !saving && alert == None
    {
      musicians := loaded;
      editingId := None;
      form := EmptyForm;
      error := None;
      saving := false;
      alert := None;
    }

    /** `resetForm`. */
    method ResetForm()
      modifies this
      ensures form == EmptyForm && editingId == None
      ensures musicians == old(musicians) && error == old(error) && saving == old(saving) && alert == old(alert)
    {
      form := EmptyForm;
      editingId := None;
    }

    /** The edit button of a listed musician. */
    method StartEdit(m: Musician)
      modifies this
      ensures editingId == Some(m.id) && form == MusicianForm(m.name, m.instrument)
      ensures musicians == old(musicians) && error == old(error) && saving == old(saving) && alert == old(alert)
    {
      editingId := Some(m.id);
      form := MusicianForm(m.name, m.instrument);
    }

    /** `handleSubmit`, given the reply to the request it sends. */
    method HandleSubmit(reply: Reply<Musician>) returns (request: MusicianRequest)
      modifies this
      ensures request == if old(editingId).Some? then UpdateRequest(old(editingId).value, old(form))
                         else CreateRequest(old(form))
      // success: the list is updated and the form reset
      ensures reply.Succeeded? ==>
        && musicians == (if old(editingId).Some? then Replaced(old(musicians), old(editingId).value, reply.data)
                         else Appended(old(musicians), reply.data))
        && form == EmptyForm && editingId == None && error == None
      // failure: the list and the form are kept and the error shown
      ensures reply.Failed? ==>
        && musicians == old(musicians) && form == old(form) && editingId == old(editingId)
        && error == Some(ErrorText(reply.error, if old(editingId).Some? then UpdateFailed else AddFailed))
      ensures reply.Threw? ==>
        && musicians == old(musicians) && form == old(form) && editingId == old(editingId)
        && error == Some(RequestFailed)
      ensures !saving && alert == old(alert)
    {
      saving := true;
      error := None;
      if editingId.Some? {
        request := UpdateRequest(editingId.value, form);
        match reply {
          case Succeeded(updated) =>
            musicians := Replaced(musicians, editingId.value, updated);
            ResetForm();
          case Failed(e) =>
            error := Some(ErrorText(e, UpdateFailed));
          case Threw =>
            error := Some(RequestFailed);
        }
      } else {
        request := CreateRequest(form);
        match reply {
          case Succeeded(created) =>
            musicians := Appended(musicians, created);
            ResetForm();
          case Failed(e) =>
            error := Some(ErrorText(e, AddFailed));
          case Threw =>
            error := Some(RequestFailed);
        }
      }
      saving := false;
    }

    /** `handleDelete`: `confirmed` is the answer to the dialog; `requested` says whether the DELETE was sent. */
    method HandleDelete(id: nat, confirmed: bool, reply: Reply<()>) returns (requested: bool)
      modifies this
      ensures requested == confirmed
      ensures confirmed && reply.Succeeded? ==> musicians == WithoutMusician(old(musicians), id) && alert == old(alert)
      ensures confirmed && !reply.Succeeded? ==> musicians == old(musicians) && alert == Some(DeleteFailed)
      ensures !confirmed ==> musicians == old(musicians) && alert == old(alert)
      ensures form == old(form) && editingId == old(editingId) && error == old(error) && saving == old(saving)
    {
      if !confirmed {
        return false;
      }
      requested := true;
      if reply.Succeeded? {
        musicians := WithoutMusician(musicians, id);
      } else {
        alert := Some(DeleteFailed);
      }
    }
  }
}
