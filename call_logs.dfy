/** The call-forwarding history (controllers/callLogController.js): an
    append-only log of enable/disable actions and a newest-first read capped
    at fifty entries. */
module CallForwardLogs {
  import opened Common
  import opened Ordering
  import opened Devices

  /** The `["enabled", "disabled"]` enum of the log's `status`. */
  datatype ForwardStatus = Enabled | Disabled

  datatype ForwardLog = ForwardLog(
    deviceId: string,
    simSlot: SimSlot,
    status: ForwardStatus,
    actionBy: string,
    timestamp: Time,
    createdAt: Time)

  /** The body of a log request; None is a field left undefined. */
  datatype LogRequest = LogRequest(simSlot: NumberArg, status: Option<string>, actionBy: Option<string>)

  /** How many entries a history read returns at most. */
  const HISTORY_LIMIT: nat := 50

  function LogCreatedAt(l: ForwardLog): int
  {
    l.createdAt
  }

  /** The `{ deviceId: id }` filter. */
  function ForDevice(id: string): ForwardLog -> bool
  {
    (l: ForwardLog) => l.deviceId == id
  }

  function ParseForwardStatus(s: Option<string>): (r: Option<ForwardStatus>)
    ensures r == Some(Enabled) <==> s == Some("enabled")
    ensures r == Some(Disabled) <==> s == Some("disabled")
  {
    if s == Some("enabled") then Some(Enabled) else if s == Some("disabled") then Some(Disabled) else None
  }

  /** The slot the schema stores: `simSlot` is a required number in `[0, 1]`.
      Mongoose casts the empty string to null, so null and "" fail `required`;
      a value that is not a number fails the cast, any other number the enum. */
  function StoredSlot(a: NumberArg): (r: Option<SimSlot>)
    ensures r.Some? <==> a == Numeric(0) || a == Numeric(1)
    ensures r.Some? ==> a == Numeric(r.value)
  {
    match a
    case Numeric(n) => if n == 0 || n == 1 then Some(n) else None
    case _ => None
  }

  /** The entry an accepted request stores, or the status it is refused with:
      400 without a slot or with a status other than "enabled"/"disabled",
      404 for an unknown device, 500 when the schema rejects the slot. */
  function NewEntry(id: string, req: LogRequest, ds: seq<Device>, now: Time): (r: Result<ForwardLog>)
    ensures req.simSlot.Undefined? || ParseForwardStatus(req.status).None? ==> r == Refuse(BAD_REQUEST)
    ensures r == Refuse(NOT_FOUND) <==>
      !req.simSlot.Undefined? && ParseForwardStatus(req.status).Some? && FindDevice(ds, id).None?
    ensures r.Accept? <==>
      ParseForwardStatus(req.status).Some? && FindDevice(ds, id).Some? && StoredSlot(req.simSlot).Some?
    ensures r.Accept? ==>
      && r.value.deviceId == id
      && Some(r.value.simSlot) == StoredSlot(req.simSlot)
      && Some(r.value.status) == ParseForwardStatus(req.status)
      && r.value.actionBy == OrElse(req.actionBy, "user")
      && r.value.timestamp == now && r.value.createdAt == now
    ensures r.Refuse? ==> r.status in {BAD_REQUEST, NOT_FOUND, SERVER_ERROR}
    ensures r == Refuse(BAD_REQUEST) <==> req.simSlot.Undefined? || ParseForwardStatus(req.status).None?
    ensures r == Refuse(SERVER_ERROR) <==>
      !req.simSlot.Undefined? && ParseForwardStatus(req.status).Some? && FindDevice(ds, id).Some?
      && StoredSlot(req.simSlot).None?
  {
    if req.simSlot.Undefined? then Refuse(BAD_REQUEST)
    else
      match ParseForwardStatus(req.status)
      case None => Refuse(BAD_REQUEST)
      case Some(status) =>
        if FindDevice(ds, id).None? then Refuse(NOT_FOUND)
        else
          match StoredSlot(req.simSlot)
          case None => Refuse(SERVER_ERROR)
          case Some(slot) => Accept(ForwardLog(id, slot, status, OrElse(req.actionBy, "user"), now, now))
  }

  /** `find({ deviceId: id }).sort({ createdAt: -1 }).limit(50)` over the log. */
  function History(logs: seq<ForwardLog>, id: string): (r: seq<ForwardLog>)
    ensures |r| <= HISTORY_LIMIT
    ensures forall l :: l in r ==> l.deviceId == id
    ensures SortedDesc(r, LogCreatedAt)
    ensures multiset(r) <= multiset(logs)
    ensures |r| == Min(HISTORY_LIMIT, |Filter(logs, ForDevice(id))|)
    ensures forall x, y ::
      x in multiset(Filter(logs, ForDevice(id))) - multiset(r) && y in r ==> x.createdAt <= y.createdAt
  {
    var keep := ForDevice(id);
    var r := Newest(logs, keep, LogCreatedAt, HISTORY_LIMIT);
    assert multiset(Filter(logs, keep)) <= multiset(logs);
    r
  }

  /** When the device has at most fifty entries, the history holds all of
      them, each as often as it was logged. */
  lemma ShortHistoryIsComplete(logs: seq<ForwardLog>, id: string)
    requires |Filter(logs, ForDevice(id))| <= HISTORY_LIMIT
    ensures forall l :: multiset(History(logs, id))[l] == if l.deviceId == id then multiset(logs)[l] else 0
  {
    var keep := ForDevice(id);
    var f := Filter(logs, keep);
    var r := History(logs, id);
    assert |multiset(r)| == |multiset(f)|;
    SubMultisetOfSameSize(multiset(r), multiset(f));
  }

  /** A sub-multiset as large as the whole is the whole. */
  lemma SubMultisetOfSameSize<T>(a: multiset<T>, b: multiset<T>)
    requires a <= b && |a| == |b|
    ensures a == b
  {
    var d := b - a;
    assert b == a + d;
    assert |d| == 0;
  }

  /** The call-forwarding log collection, in insertion order. */
  class CallLogStore {
    var logs: seq<ForwardLog>

    constructor()
      ensures logs == []
    {
      logs := [];
    }

    /** `getCallForwardLogs`: 404 for an unknown device, else its history. */
    function GetCallForwardLogs(id: string, devices: DeviceStore): (r: Reply<seq<ForwardLog>>)
      reads this, devices
      ensures FindDevice(devices.devices, id).None? <==> r == Err(NOT_FOUND)
      ensures FindDevice(devices.devices, id).Some? ==> r == Ok(OK, History(logs, id))
    {
      if FindDevice(devices.devices, id).None? then Err(NOT_FOUND) else Ok(OK, History(logs, id))
    }

    /** `logCallForwardStatus`: a refused request appends nothing; an
        accepted one appends exactly one entry after the earlier ones. */
    method LogCallForwardStatus(id: string, req: LogRequest, now: Time, devices: DeviceStore)
      returns (reply: Reply<ForwardLog>)
      modifies this
      ensures NewEntry(id, req, devices.devices, now).Refuse? ==>
        reply == Err(NewEntry(id, req, devices.devices, now).status) && logs == old(logs)
      ensures NewEntry(id, req, devices.devices, now).Accept? ==>
        var entry := NewEntry(id, req, devices.devices, now).value;
        logs == old(logs) + [entry] && reply == Ok(OK, entry)
    {
      var entry := NewEntry(id, req, devices.devices, now);
      if entry.Refuse? {
        return Err(entry.status);
      }
      logs := logs + [entry.value];
      reply := Ok(OK, entry.value);
    }
  }
}
