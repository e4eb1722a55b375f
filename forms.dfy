/** Submitted forms (controllers/formController.js): one record per
    `uniqueid`, holding every submitted entry in the order it arrived. */
module Forms {
  import opened Common

  /** One submission: the four fields as sent and when it was received. */
  datatype FormEntry = FormEntry(
    fullName: Option<string>,
    motherName: Option<string>,
    phoneNumber: Option<string>,
    dob: Option<string>,
    createdAt: Time)

  /** The body of a submission; None is a field left undefined. */
  datatype FormRequest = FormRequest(
    uniqueid: Option<string>,
    fullName: Option<string>,
    motherName: Option<string>,
    phoneNumber: Option<string>,
    dob: Option<string>)

  /** The entry a submission appends. */
  function EntryOf(req: FormRequest, now: Time): (e: FormEntry)
    ensures e.fullName == req.fullName && e.motherName == req.motherName
    ensures e.phoneNumber == req.phoneNumber && e.dob == req.dob
    ensures e.createdAt == now
  {
    FormEntry(req.fullName, req.motherName, req.phoneNumber, req.dob, now)
  }

  /** The forms of every device after one submission to `id`: a first
      submission creates a one-entry list, a later one appends at its end. */
  function Submitted(forms: map<string, seq<FormEntry>>, id: string, e: FormEntry): (r: map<string, seq<FormEntry>>)
    ensures r.Keys == forms.Keys + {id}
    ensures id !in forms ==> r[id] == [e]
    ensures id in forms ==> r[id] == forms[id] + [e]
    ensures forall k :: k in forms && k != id ==> r[k] == forms[k]
  {
    if id in forms then forms[id := forms[id] + [e]] else forms[id := [e]]
  }

  /** The forms after a run of submissions to `id`, oldest first. */
  function SubmitAll(forms: map<string, seq<FormEntry>>, id: string, entries: seq<FormEntry>): (r: map<string, seq<FormEntry>>)
    ensures entries == [] ==> r == forms
    ensures r.Keys == forms.Keys + (if entries == [] then {} else {id})
    ensures forall k :: k in forms && k != id ==> r[k] == forms[k]
    decreases |entries|
  {
    if entries == [] then forms
    else SubmitAll(Submitted(forms, id, entries[0]), id, entries[1..])
  }

  /** Repeated submissions keep every entry, in the order they came: the
      device's list is its earlier list followed by the new entries, and no
      other device's list changes. */
  lemma {:induction false} SubmissionsAppendInOrder(forms: map<string, seq<FormEntry>>, id: string, entries: seq<FormEntry>)
    requires entries != []
    ensures var r := SubmitAll(forms, id, entries);
      && r.Keys == forms.Keys + {id}
      && r[id] == (if id in forms then forms[id] else []) + entries
      && forall k :: k in forms && k != id ==> r[k] == forms[k]
    decreases |entries|
  {
    var next := Submitted(forms, id, entries[0]);
    if |entries| > 1 {
      SubmissionsAppendInOrder(next, id, entries[1..]);
      assert [entries[0]] + entries[1..] == entries;
    }
  }

  /** The forms collection, keyed by `uniqueid`. */
  class FormStore {
    var forms: map<string, seq<FormEntry>>

    /** Every stored record has at least the entry that created it. */
    ghost predicate Valid()
      reads this
    {
      forall id :: id in forms ==> forms[id] != []
    }

    constructor()
      ensures Valid() && forms == map[]
    {
      forms := map[];
    }

    /** `saveFormStep1`: answers with `success` false and writes nothing when
        the id is missing; otherwise appends the entry to the device's
        record, creating the record on the first submission. */
    method SaveFormStep1(req: FormRequest, now: Time) returns (reply: Reply<bool>)
      requires Valid()
      modifies this
      ensures Valid()
      ensures !Given(req.uniqueid) ==> reply == Ok(OK, false) && forms == old(forms)
      ensures Given(req.uniqueid) ==>
        forms == Submitted(old(forms), req.uniqueid.value, EntryOf(req, now)) && reply == Ok(OK, true)
    {
      if !Given(req.uniqueid) {
        return Ok(OK, false);
      }
      var id := req.uniqueid.value;
      var entry := EntryOf(req, now);
      match Lookup(forms, id) {
        case None => forms := forms[id := [entry]];
        case Some(user) => forms := forms[id := user + [entry]];
      }
      reply := Ok(OK, true);
    }
  }
}
