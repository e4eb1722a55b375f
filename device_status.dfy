/** Connectivity reports kept per device (controllers/statusController.js):
    one record per `uniqueid`, holding the connectivity as reported. */
module DeviceStatusReports {
  import opened Common

  datatype StatusRecord = StatusRecord(uniqueid: string, connectivity: string, updatedAt: Time)

  /** The status collection, keyed by `uniqueid`. */
  class StatusStore {
    var records: map<string, StatusRecord>

    /** One record per device: each is stored under its own id. */
    ghost predicate Valid()
      reads this
    {
      forall id :: id in records ==> records[id].uniqueid == id
    }

    constructor()
      ensures Valid() && records == map[]
    {
      records := map[];
    }

    /** `updateStatus`: a report without a device id or a connectivity writes
        nothing; otherwise the device's record is updated, or created when
        there is none, with the connectivity exactly as reported. */
    method UpdateStatus(uniqueid: Option<string>, connectivity: Option<string>, now: Time)
      returns (reply: Reply<StatusRecord>)
      requires Valid()
      modifies this
      ensures Valid()
      ensures !Given(uniqueid) || !Given(connectivity) ==>
        reply == Err(BAD_REQUEST) && records == old(records)
      ensures Given(uniqueid) && Given(connectivity) ==>
        var r := StatusRecord(uniqueid.value, connectivity.value, now);
        && records == old(records)[uniqueid.value := r]
        && reply == Ok(OK, r)
    {
      if !Given(uniqueid) || !Given(connectivity) {
        return Err(BAD_REQUEST);
      }
      var id := uniqueid.value;
      var r;
      match Lookup(records, id) {
        case Some(device) =>
          r := device.(connectivity := connectivity.value, updatedAt := now);
        case None =>
          r := StatusRecord(id, connectivity.value, now);
      }
      records := records[id := r];
      reply := Ok(OK, r);
    }
  }
}
