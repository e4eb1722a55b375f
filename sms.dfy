/** The outgoing SMS of each device (controllers/smsController.js): one
    record per device id, replaced by every send. */
module OutgoingSms {
  import opened Common

  datatype SmsRecord = SmsRecord(uniqueid: string, to: string, body: string, simSlot: int, sentAt: Time)

  /** The body of a send; None is a field left undefined. */
  datatype SmsRequest = SmsRequest(to: Option<string>, body: Option<string>, simSlot: NumberArg, timestamp: Option<Time>)

  /** The record a send writes, or the status it is refused with: 400 without
      id, recipient or text, and 500 when `Number(simSlot)` is NaN, which the
      schema cannot cast to a number. */
  function SentRecord(id: string, req: SmsRequest, now: Time): (r: Result<SmsRecord>)
    ensures id == "" || !Given(req.to) || !Given(req.body) ==> r == Refuse(BAD_REQUEST)
    ensures r.Accept? <==> id != "" && Given(req.to) && Given(req.body) && ToNumber(req.simSlot).Some?
    ensures r.Accept? ==>
      && r.value.uniqueid == id && r.value.to == req.to.value && r.value.body == req.body.value
      && Some(r.value.simSlot) == ToNumber(req.simSlot)
      && r.value.sentAt == TimeOr(req.timestamp, now)
    ensures r.Refuse? ==> r.status in {BAD_REQUEST, SERVER_ERROR}
    ensures r == Refuse(BAD_REQUEST) <==> id == "" || !Given(req.to) || !Given(req.body)
    ensures r == Refuse(SERVER_ERROR) <==>
      id != "" && Given(req.to) && Given(req.body) && ToNumber(req.simSlot).None?
  {
    if id == "" || !Given(req.to) || !Given(req.body) then Refuse(BAD_REQUEST)
    else
      match ToNumber(req.simSlot)
      case None => Refuse(SERVER_ERROR)
      case Some(slot) => Accept(SmsRecord(id, req.to.value, req.body.value, slot, TimeOr(req.timestamp, now)))
  }

  /** The SMS collection, keyed by device id. */
  class SmsStore {
    var records: map<string, SmsRecord>

    /** One record per device: each is stored under its own id. */
    ghost predicate Valid()
      reads this
    {
      forall id :: id in records ==> records[id].uniqueid == id
    }

    constructor()
      ensures Valid() && records == map[]
    {
      records := map[];
    }

    /** `getSmsByDeviceId`: always answers, with the device's record or null. */
    function GetSmsByDeviceId(id: string): (r: Reply<Option<SmsRecord>>)
      reads this
      ensures r.Ok? && r.code == OK
      ensures r.data.Some? <==> id in records
      ensures r.data.Some? ==> r.data.value == records[id]
    {
      Ok(OK, Lookup(records, id))
    }

    /** `sendSmsByDeviceId`: a refused send writes nothing; an accepted one
        replaces the device's record, or creates it, and no other changes. */
    method SendSmsByDeviceId(id: string, req: SmsRequest, now: Time) returns (reply: Reply<SmsRecord>)
      requires Valid()
      modifies this
      ensures Valid()
      ensures SentRecord(id, req, now).Refuse? ==>
        reply == Err(SentRecord(id, req, now).status) && records == old(records)
      ensures SentRecord(id, req, now).Accept? ==>
        var r := SentRecord(id, req, now).value;
        records == old(records)[id := r] && reply == Ok(OK, r)
    {
      var sent := SentRecord(id, req, now);
      if sent.Refuse? {
        return Err(sent.status);
      }
      records := records[id := sent.value];
      reply := Ok(OK, sent.value);
    }
  }
}
