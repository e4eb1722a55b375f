/** SIM information per device (controllers/simInfoController.js): saved
    under the exact `uniqueid`, merged field by field into an existing record,
    and looked up by an id that is trimmed and compared ignoring case. */
module SimInfo {
  import opened Common
  import opened Strings

  /** The six SIM fields of a save request and of a stored record; None is a
      field that is undefined (not sent, or never stored). */
  datatype SimFields = SimFields(
    sim1Number: Option<Value>,
    sim1Carrier: Option<Value>,
    sim1Slot: Option<Value>,
    sim2Number: Option<Value>,
    sim2Carrier: Option<Value>,
    sim2Slot: Option<Value>)

  datatype SimRecord = SimRecord(uniqueid: string, fields: SimFields)

  /** `submitted || stored` */
  function MergeField(submitted: Option<Value>, stored: Option<Value>): (r: Option<Value>)
    ensures Truthy(submitted) ==> r == submitted
    ensures !Truthy(submitted) ==> r == stored
  {
    if Truthy(submitted) then submitted else stored
  }

  /** The update of an existing record: each field takes the submitted value
      when it is truthy and keeps the stored one otherwise. */
  function Merge(stored: SimFields, submitted: SimFields): (r: SimFields)
    ensures r.sim1Number == MergeField(submitted.sim1Number, stored.sim1Number)
    ensures r.sim1Carrier == MergeField(submitted.sim1Carrier, stored.sim1Carrier)
    ensures r.sim1Slot == MergeField(submitted.sim1Slot, stored.sim1Slot)
    ensures r.sim2Number == MergeField(submitted.sim2Number, stored.sim2Number)
    ensures r.sim2Carrier == MergeField(submitted.sim2Carrier, stored.sim2Carrier)
    ensures r.sim2Slot == MergeField(submitted.sim2Slot, stored.sim2Slot)
  {
    SimFields(
      MergeField(submitted.sim1Number, stored.sim1Number),
      MergeField(submitted.sim1Carrier, stored.sim1Carrier),
      MergeField(submitted.sim1Slot, stored.sim1Slot),
      MergeField(submitted.sim2Number, stored.sim2Number),
      MergeField(submitted.sim2Carrier, stored.sim2Carrier),
      MergeField(submitted.sim2Slot, stored.sim2Slot))
  }

  /** Every field of a payload is falsy: absent, null, false, 0 or "". */
  predicate Blank(p: SimFields)
  {
    !Truthy(p.sim1Number) && !Truthy(p.sim1Carrier) && !Truthy(p.sim1Slot)
    && !Truthy(p.sim2Number) && !Truthy(p.sim2Carrier) && !Truthy(p.sim2Slot)
  }

  /** A payload of falsy values leaves the stored record as it was. */
  lemma BlankKeepsRecord(stored: SimFields, submitted: SimFields)
    requires Blank(submitted)
    ensures Merge(stored, submitted) == stored
  {
  }

  /** Saving the same payload twice gives what saving it once gives. */
  lemma MergeIdempotent(stored: SimFields, submitted: SimFields)
    ensures Merge(Merge(stored, submitted), submitted) == Merge(stored, submitted)
  {
  }

  /** Saving a payload again over the record it created changes nothing. */
  lemma MergeIntoCreated(submitted: SimFields)
    ensures Merge(submitted, submitted) == submitted
  {
  }

  /** The stored id `k` answers a lookup of `id`: equal to `^cleanId$`
      under a case-insensitive match. */
  predicate MatchesId(k: string, id: string)
  {
    Lower(k) == Normalize(id)
  }

  /** A stored id without white space at its ends is found by itself. */
  lemma StoredIdIsFound(k: string)
    requires k != [] ==> !IsSpace(k[0]) && !IsSpace(k[|k| - 1])
    ensures MatchesId(k, k)
  {
  }

  /** A stored id without white space at its ends is found by its upper-cased spelling. */
  lemma StoredIdIsFoundInCapitals(k: string)
    requires k != [] ==> !IsSpace(k[0]) && !IsSpace(k[|k| - 1])
    ensures MatchesId(k, Upper(k))
  {
    var u := Upper(k);
    UpperKeepsEnds(k);
    TrimOfTrimmed(u);
    LowerOfUpper(k);
  }

  /** Upper-casing neither adds nor removes white space at the ends. */
  lemma UpperKeepsEnds(k: string)
    requires k != [] ==> !IsSpace(k[0]) && !IsSpace(k[|k| - 1])
    ensures var u := Upper(k); u != [] ==> !IsSpace(u[0]) && !IsSpace(u[|u| - 1])
  {
  }

  /** The SIM info collection, keyed by the exact `uniqueid`. */
  class SimInfoStore {
    var records: map<string, SimRecord>

    /** One record per exact id: each is stored under its own. */
    ghost predicate Valid()
      reads this
    {
      forall id :: id in records ==> records[id].uniqueid == id
    }

    constructor()
      ensures Valid() && records == map[]
    {
      records := map[];
    }

    /** `saveSimInfo`: without an id nothing is written; a known id has the
        payload merged into its record, an unknown one gets a record holding
        the payload as sent. No other record changes. */
    method SaveSimInfo(uniqueid: Option<string>, submitted: SimFields) returns (reply: Reply<SimRecord>)
      requires Valid()
      modifies this
      ensures Valid()
      ensures !Given(uniqueid) ==> reply == Err(BAD_REQUEST) && records == old(records)
      ensures Given(uniqueid) ==>
        var id := uniqueid.value;
        var r := if id in old(records) then SimRecord(id, Merge(old(records)[id].fields, submitted))
                 else SimRecord(id, submitted);
        records == old(records)[id := r] && reply == Ok(OK, r)
    {
      if !Given(uniqueid) {
        return Err(BAD_REQUEST);
      }
      var id := uniqueid.value;
      var r;
      match Lookup(records, id) {
        case Some(existing) => r := existing.(fields := Merge(existing.fields, submitted));
        case None => r := SimRecord(id, submitted);
      }
      records := records[id := r];
      reply := Ok(OK, r);
    }

    /** `getSimByDeviceId`: an empty id is refused; otherwise a record whose
        id matches the trimmed, lower-cased id ignoring case, or 404 when
        none does. Which of several matching records is returned is not
        specified. */
    method GetSimByDeviceId(id: string) returns (reply: Reply<SimRecord>)
      ensures id == "" ==> reply == Err(BAD_REQUEST)
      ensures id != "" && (forall k :: k in records ==> !MatchesId(k, id)) ==> reply == Err(NOT_FOUND)
      ensures id != "" && (exists k :: k in records && MatchesId(k, id)) ==> reply.Ok?
      ensures reply.Ok? ==> reply.code == OK && exists k :: k in records && MatchesId(k, id) && records[k] == reply.data
      ensures reply.Err? ==> reply.code in {BAD_REQUEST, NOT_FOUND}
    {
      if id == "" {
        return Err(BAD_REQUEST);
      }
      var cleanId := Normalize(id);
      var matching := set k | k in records && Lower(k) == cleanId;
      if matching == {} {
        assert forall k :: k in records ==> !MatchesId(k, id) by {
          forall k | k in records ensures !MatchesId(k, id) {
            assert k !in matching;
          }
        }
        return Err(NOT_FOUND);
      }
      var k :| k in matching;
      reply := Ok(OK, records[k]);
    }
  }
}
