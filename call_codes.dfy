/** Call-forwarding codes (controllers/callController.js): at most one code
    per device and SIM slot, and a read that answers with the device's most
    recently created code. A device's `_id` is its index in the device
    collection. */
module CallCodes {
  import opened Common
  import opened Devices

  /** The `["ussd", "number"]` enum of the `type` field. */
  datatype CallType = Ussd | Number

  datatype CallCode = CallCode(
    deviceId: nat,
    code: string,
    callType: CallType,
    simSlot: SimSlot,
    status: Activity,
    createdAt: Time,
    updatedAt: Time)

  /** A text field of an update as the handler sees it: left undefined,
      sent as null, or a string. The handler refuses only undefined fields;
      a null one reaches the schema, whose `required` check rejects it. */
  datatype TextArg = Omitted | NullText | Text(s: string)

  /** The body of an update. */
  datatype CallCodeRequest = CallCodeRequest(code: TextArg, callType: TextArg, simSlot: NumberArg)

  /** A request that passed every check, with the device it is for. */
  datatype Accepted = Accepted(device: nat, code: string, callType: CallType, simSlot: SimSlot)

  /** The payload of a successful update. */
  datatype SavedCode = SavedCode(
    uniqueId: string,
    deviceId: nat,
    callCode: string,
    callType: CallType,
    simSlot: SimSlot,
    status: Activity)

  /** What a read answers with: the latest stored code, or the placeholder
      `{ code: "", type: "", simSlot: null, status: "inactive" }`. */
  datatype CallCodeData =
    | Latest(record: CallCode)
    | NoCallCode(code: string, callType: string, simSlot: Option<SimSlot>, status: Activity)

  const NO_CALL_CODE: CallCodeData := NoCallCode("", "", None, Inactive)

  /** The schema's reading of a `type` string. */
  function ParseCallType(t: string): (r: Option<CallType>)
    ensures r == Some(Ussd) <==> t == "ussd"
    ensures r == Some(Number) <==> t == "number"
  {
    if t == "ussd" then Some(Ussd) else if t == "number" then Some(Number) else None
  }

  /** The checks of `updateCallStatusCode`, in the order they are made:
      all three fields defined (400), the slot converting to 0 or 1 (400),
      a device with that id (404), then the schema's `required` code and
      `type` and its `type` enum, whose failure makes the save throw (500).
      A null or empty code and a null type fail `required`. */
  function Validate(id: string, req: CallCodeRequest, ds: seq<Device>): (r: Result<Accepted>)
    ensures req.code.Omitted? || req.callType.Omitted? || req.simSlot.Undefined? ==> r == Refuse(BAD_REQUEST)
    ensures !req.simSlot.Undefined? && SlotOf(req.simSlot).None? ==> r == Refuse(BAD_REQUEST)
    ensures r.Refuse? ==> r.status in {BAD_REQUEST, NOT_FOUND, SERVER_ERROR}
    ensures r == Refuse(BAD_REQUEST) <==> req.code.Omitted? || req.callType.Omitted? || SlotOf(req.simSlot).None?
    ensures r == Refuse(NOT_FOUND) <==>
      !req.code.Omitted? && !req.callType.Omitted? && SlotOf(req.simSlot).Some? && FindDevice(ds, id).None?
    ensures r == Refuse(SERVER_ERROR) <==>
      && !req.code.Omitted? && !req.callType.Omitted? && SlotOf(req.simSlot).Some? && FindDevice(ds, id).Some?
      && (!req.code.Text? || req.code.s == "" || !req.callType.Text? || ParseCallType(req.callType.s).None?)
    ensures r.Accept? <==>
      && req.code.Text? && req.callType.Text? && SlotOf(req.simSlot).Some? && FindDevice(ds, id).Some?
      && req.code.s != "" && ParseCallType(req.callType.s).Some?
    ensures r.Accept? ==>
      && Some(r.value.device) == FindDevice(ds, id)
      && r.value.code == req.code.s
      && Some(r.value.callType) == ParseCallType(req.callType.s)
      && Some(r.value.simSlot) == SlotOf(req.simSlot)
  {
    if req.code.Omitted? || req.callType.Omitted? || req.simSlot.Undefined? then Refuse(BAD_REQUEST)
    else
      match SlotOf(req.simSlot)
      case None => Refuse(BAD_REQUEST)
      case Some(slot) =>
        match FindDevice(ds, id)
        case None => Refuse(NOT_FOUND)
        case Some(i) =>
          match (req.code, req.callType)
          case (Text(code), Text(t)) =>
            if code == "" then Refuse(SERVER_ERROR)
            else
              (match ParseCallType(t)
               case None => Refuse(SERVER_ERROR)
               case Some(callType) => Accept(Accepted(i, code, callType, slot)))
          case _ => Refuse(SERVER_ERROR)
  }

  /** A null code or type passes the handler's own check and is refused by
      the schema once the device is found, or with 404 when it is not. */
  lemma NullFieldsReachSchema(id: string, slot: SimSlot, ds: seq<Device>, t: string)
    ensures FindDevice(ds, id).Some? ==> Validate(id, CallCodeRequest(NullText, Text(t), Numeric(slot)), ds) == Refuse(SERVER_ERROR)
    ensures FindDevice(ds, id).Some? ==> Validate(id, CallCodeRequest(Text(t), NullText, Numeric(slot)), ds) == Refuse(SERVER_ERROR)
    ensures FindDevice(ds, id).None? ==> Validate(id, CallCodeRequest(NullText, NullText, Numeric(slot)), ds) == Refuse(NOT_FOUND)
  {
  }

  /** The code stored for an accepted request: updated in place when the
      device already has one for that slot, created otherwise; either way it
      is active and holds the submitted code and type. */
  function Saved(prev: Option<CallCode>, a: Accepted, now: Time): (r: CallCode)
    requires prev.Some? ==> prev.value.deviceId == a.device && prev.value.simSlot == a.simSlot
    ensures r.deviceId == a.device && r.simSlot == a.simSlot
    ensures r.code == a.code && r.callType == a.callType && r.status == Active
    ensures r.updatedAt == now
    ensures prev.Some? ==> r.createdAt == prev.value.createdAt
    ensures prev.None? ==> r.createdAt == now
  {
    match prev
    case Some(c) => c.(code := a.code, callType := a.callType, status := Active, updatedAt := now)
    case None => CallCode(a.device, a.code, a.callType, a.simSlot, Active, now, now)
  }

  /** `CallCode.findOne({ deviceId }).sort({ createdAt: -1 })`: of the device's
      codes, the one created last. */
  function LatestCode(codes: map<(nat, SimSlot), CallCode>, device: nat): (r: Option<CallCode>)
    ensures r.None? <==> (device, 0) !in codes && (device, 1) !in codes
    ensures r.Some? ==> ((device, 0) in codes && r.value == codes[(device, 0)])
                        || ((device, 1) in codes && r.value == codes[(device, 1)])
    ensures r.Some? && (device, 0) in codes ==> codes[(device, 0)].createdAt <= r.value.createdAt
    ensures r.Some? && (device, 1) in codes ==> codes[(device, 1)].createdAt <= r.value.createdAt
  {
    match (Lookup(codes, (device, 0)), Lookup(codes, (device, 1)))
    case (Some(a), Some(b)) => if b.createdAt > a.createdAt then Some(b) else Some(a)
    case (Some(a), None) => Some(a)
    case (None, Some(b)) => Some(b)
    case (None, None) => None
  }

  /** The read orders by creation, not by update: re-saving the code of a slot
      created earlier leaves the other slot's code as the one a read returns. */
  lemma ReadFollowsCreation(codes: map<(nat, SimSlot), CallCode>, a: Accepted, now: Time)
    requires (a.device, 0) in codes && (a.device, 1) in codes
    requires codes[(a.device, 0)].deviceId == a.device && codes[(a.device, 0)].simSlot == 0
    requires a.simSlot == 0 && codes[(a.device, 0)].createdAt < codes[(a.device, 1)].createdAt
    ensures LatestCode(codes[(a.device, 0) := Saved(Some(codes[(a.device, 0)]), a, now)], a.device)
      == Some(codes[(a.device, 1)])
  {
  }

  /** The call code collection, keyed by device and SIM slot. */
  class CallCodeStore {
    var codes: map<(nat, SimSlot), CallCode>

    /** At most one code per device and slot: each is stored under its own. */
    ghost predicate Valid()
      reads this
    {
      forall k :: k in codes ==> codes[k].deviceId == k.0 && codes[k].simSlot == k.1
    }

    constructor()
      ensures Valid() && codes == map[]
    {
      codes := map[];
    }

    /** `getCallStatusCode`: 404 for an unknown device, else its latest code
        or the inactive placeholder. */
    function GetCallStatusCode(id: string, devices: DeviceStore): (r: Reply<CallCodeData>)
      reads this, devices
      ensures FindDevice(devices.devices, id).None? <==> r == Err(NOT_FOUND)
      ensures FindDevice(devices.devices, id).Some? ==> r.Ok?
      ensures r.Ok? ==> r.code == OK
      ensures r.Ok? ==> var i := FindDevice(devices.devices, id).value;
        && (r.data == NO_CALL_CODE <==> (i, 0) !in codes && (i, 1) !in codes)
        && (r.data.Latest? <==> LatestCode(codes, i).Some?)
        && (r.data.Latest? ==> Some(r.data.record) == LatestCode(codes, i))
    {
      match FindDevice(devices.devices, id)
      case None => Err(NOT_FOUND)
      case Some(i) =>
        match LatestCode(codes, i)
        case None => Ok(OK, NO_CALL_CODE)
        case Some(c) => Ok(OK, Latest(c))
    }

    /** `updateCallStatusCode`: a refused request writes nothing; an accepted
        one saves the code of that device and slot, leaves every other code as
        it was, and records the code on the device. */
    method UpdateCallStatusCode(id: string, req: CallCodeRequest, now: Time, devices: DeviceStore)
      returns (reply: Reply<SavedCode>)
      requires Valid() && devices.Valid()
      modifies this, devices
      ensures Valid() && devices.Valid()
      ensures Validate(id, req, old(devices.devices)).Refuse? ==>
        && reply == Err(Validate(id, req, old(devices.devices)).status)
        && codes == old(codes) && devices.devices == old(devices.devices)
      ensures Validate(id, req, old(devices.devices)).Accept? ==>
        var a := Validate(id, req, old(devices.devices)).value;
        var ds := old(devices.devices);
        && codes == old(codes)[(a.device, a.simSlot) := Saved(Lookup(old(codes), (a.device, a.simSlot)), a, now)]
        && devices.devices == ds[a.device := ds[a.device].(callStatusCode := Some(a.code))]
        && reply == Ok(OK, SavedCode(ds[a.device].uniqueId, a.device, a.code, a.callType, a.simSlot, Active))
    {
      var checked := Validate(id, req, devices.devices);
      if checked.Refuse? {
        return Err(checked.status);
      }
      var a := checked.value;
      var uniqueId := devices.devices[a.device].uniqueId;
      var c := Saved(Lookup(codes, (a.device, a.simSlot)), a, now);
      codes := codes[(a.device, a.simSlot) := c];
      devices.RecordCallStatusCode(a.device, a.code);
      reply := Ok(OK, SavedCode(uniqueId, a.device, c.code, c.callType, c.simSlot, c.status));
    }
  }
}
