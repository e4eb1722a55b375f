/** Device records: registration, status reports and the device list
    (controllers/deviceController.js). The collection is a sequence in
    insertion order, so that `findOne` finds the first matching record. */
module Devices {
  import opened Common
  import opened Strings
  import opened Ordering

  /** The `status` values the controller writes. */
  datatype DeviceStatus = ONLINE | BUSY | IDLE | OFFLINE

  datatype Device = Device(
    uniqueId: string,
    model: string,
    manufacturer: string,
    androidVersion: string,
    brand: string,
    simOperator: string,
    status: DeviceStatus,
    connectivity: string,
    batteryLevel: int,
    isCharging: bool,
    lastSeenAt: Time,
    createdAt: Time,
    callStatusCode: Option<string>)

  /** The body of a registration request. */
  datatype Registration = Registration(
    uniqueId: Option<string>,
    model: Option<string>,
    manufacturer: Option<string>,
    androidVersion: Option<string>,
    brand: Option<string>,
    simOperator: Option<string>)

  /** The body of a status report. */
  datatype StatusReport = StatusReport(
    deviceId: Option<string>,
    batteryLevel: Option<Value>,
    isCharging: Option<Value>,
    connectivity: Option<string>)

  /** The `update` object a status report writes; an absent battery level or
      charging flag is a field the update does not set. */
  datatype StatusUpdate = StatusUpdate(
    lastSeenAt: Time,
    connectivity: string,
    status: DeviceStatus,
    batteryLevel: Option<int>,
    isCharging: Option<bool>)

  /** The `event` of a `deviceListUpdated` broadcast. */
  datatype ListEvent = DeviceUpdated | DeviceRegistered | DeviceStatusChanged

  datatype ListUpdate = ListUpdate(event: ListEvent, device: Device)

  const UNKNOWN: string := "Unknown"
  const UNAVAILABLE: string := "Unavailable"

  /** Every text field of a stored device is non-empty. */
  predicate WellFormed(d: Device)
  {
    d.uniqueId != "" && d.model != "" && d.manufacturer != "" && d.androidVersion != ""
    && d.brand != "" && d.simOperator != "" && d.connectivity != ""
  }

  function CreatedAt(d: Device): int
  {
    d.createdAt
  }

  /** `Device.findOne({ uniqueId: id })`: the index of the first record with that id. */
  function FindDevice(ds: seq<Device>, id: string): (r: Option<nat>)
    ensures r.Some? ==> r.value < |ds| && ds[r.value].uniqueId == id
    ensures r.Some? ==> forall j :: 0 <= j < r.value ==> ds[j].uniqueId != id
    ensures r.None? <==> forall j :: 0 <= j < |ds| ==> ds[j].uniqueId != id
    decreases |ds|
  {
    if ds == [] then None
    else if ds[0].uniqueId == id then Some(0)
    else
      match FindDevice(ds[1..], id)
      case None =>
        assert forall j :: 1 <= j < |ds| ==> ds[j] == ds[1..][j - 1];
        None
      case Some(k) =>
        assert forall j :: 1 <= j <= k ==> ds[j] == ds[1..][j - 1];
        Some(k + 1)
  }

  /** `generateDeviceId()`, given the random base-36 digits it draws: "DEV-"
      followed by those digits, their letters in capitals. */
  function GenerateDeviceId(randomDigits: string): (id: string)
    ensures |id| == 4 + |randomDigits| && id[..4] == "DEV-"
    ensures forall i :: 4 <= i < |id| ==> !('a' <= id[i] <= 'z')
    ensures Lower(id[4..]) == Lower(randomDigits)
  {
    var id := "DEV-" + Upper(randomDigits);
    assert id[4..] == Upper(randomDigits);
    LowerOfUpper(randomDigits);
    id
  }

  /** `uniqueId || generateDeviceId()`: the id of a newly registered device. */
  function AssignedId(uniqueId: Option<string>, randomDigits: string): (id: string)
    ensures id != ""
    ensures Given(uniqueId) ==> id == uniqueId.value
    ensures !Given(uniqueId) ==> |id| == 4 + |randomDigits| && id[..4] == "DEV-"
  {
    if Given(uniqueId) then uniqueId.value else GenerateDeviceId(randomDigits)
  }

  /** The record `Device.create` stores for a new registration: missing
      descriptive fields are filled in, the device starts online, and the
      schema defaults give battery 0 and not charging. */
  function NewDevice(req: Registration, id: string, now: Time): (d: Device)
    requires id != ""
    ensures WellFormed(d)
    ensures d.uniqueId == id
    ensures Given(req.model) ==> d.model == req.model.value
    ensures !Given(req.model) ==> d.model == UNKNOWN
    ensures Given(req.manufacturer) ==> d.manufacturer == req.manufacturer.value
    ensures !Given(req.manufacturer) ==> d.manufacturer == UNKNOWN
    ensures Given(req.androidVersion) ==> d.androidVersion == req.androidVersion.value
    ensures !Given(req.androidVersion) ==> d.androidVersion == UNKNOWN
    ensures Given(req.brand) ==> d.brand == req.brand.value
    ensures !Given(req.brand) ==> d.brand == UNKNOWN
    ensures Given(req.simOperator) ==> d.simOperator == req.simOperator.value
    ensures !Given(req.simOperator) ==> d.simOperator == UNAVAILABLE
    ensures d.status == ONLINE && d.connectivity == "Online"
    ensures d.lastSeenAt == now && d.createdAt == now
    ensures d.batteryLevel == 0 && !d.isCharging && d.callStatusCode == None
  {
    Device(
      id,
      OrElse(req.model, UNKNOWN),
      OrElse(req.manufacturer, UNKNOWN),
      OrElse(req.androidVersion, UNKNOWN),
      OrElse(req.brand, UNKNOWN),
      OrElse(req.simOperator, UNAVAILABLE),
      ONLINE, "Online", 0, false, now, now, None)
  }

  /** A repeated registration of a stored device: it is marked online and
      seen now; what it says about itself is not written. */
  function Refreshed(d: Device, now: Time): (r: Device)
    ensures r.status == ONLINE && r.connectivity == "Online" && r.lastSeenAt == now
    ensures r.uniqueId == d.uniqueId && r.model == d.model && r.manufacturer == d.manufacturer
    ensures r.androidVersion == d.androidVersion && r.brand == d.brand && r.simOperator == d.simOperator
    ensures r.batteryLevel == d.batteryLevel && r.isCharging == d.isCharging
    ensures r.createdAt == d.createdAt && r.callStatusCode == d.callStatusCode
    ensures WellFormed(d) ==> WellFormed(r)
  {
    d.(lastSeenAt := now, connectivity := "Online", status := ONLINE)
  }

  /** The status read off a reported connectivity: the first of "online",
      "busy" and "idle" that it mentions in any letter case, else OFFLINE. */
  function Classify(connectivity: Option<string>): (r: DeviceStatus)
    ensures var c := OrElse(connectivity, "");
      && (r == ONLINE <==> Mentions(c, "online"))
      && (r == BUSY <==> !Mentions(c, "online") && Mentions(c, "busy"))
      && (r == IDLE <==> !Mentions(c, "online") && !Mentions(c, "busy") && Mentions(c, "idle"))
      && (r == OFFLINE <==> !Mentions(c, "online") && !Mentions(c, "busy") && !Mentions(c, "idle"))
  {
    var c := OrElse(connectivity, "");
    var lower := Lower(c);
    LowerContains(c, "online");
    LowerContains(c, "busy");
    LowerContains(c, "idle");
    if Contains(lower, "online") then ONLINE
    else if Contains(lower, "busy") then BUSY
    else if Contains(lower, "idle") then IDLE
    else OFFLINE
  }

  /** The classification does not depend on letter case. */
  lemma ClassifyIgnoresCase(s: string)
    ensures Classify(Some(Upper(s))) == Classify(Some(s))
    ensures Classify(Some(Lower(s))) == Classify(Some(s))
  {
    LowerOfUpper(s);
    LowerIdempotent(s);
  }

  /** A connectivity that mentions "online" anywhere wins over every other word. */
  lemma OnlineWins(prefix: string, suffix: string)
    ensures Classify(Some(prefix + "ONLINE" + suffix)) == ONLINE
  {
    var c := prefix + "ONLINE" + suffix;
    assert c[|prefix|..|prefix| + 6] == "ONLINE";
    assert Lower("ONLINE") == "online";
    assert MentionsAt(c, "online", |prefix|);
  }

  /** A report without connectivity marks the device OFFLINE and stores "Unknown". */
  lemma MissingConnectivity(req: StatusReport, now: Time)
    requires !Given(req.connectivity)
    ensures BuildStatusUpdate(req, now).status == OFFLINE
    ensures BuildStatusUpdate(req, now).connectivity == UNKNOWN
  {
  }

  /** The `update` object of a status report: the battery level only when it
      is a number, the charging flag only when it is a boolean. */
  function BuildStatusUpdate(req: StatusReport, now: Time): (u: StatusUpdate)
    ensures u.lastSeenAt == now
    ensures u.status == Classify(req.connectivity)
    ensures Given(req.connectivity) ==> u.connectivity == req.connectivity.value
    ensures !Given(req.connectivity) ==> u.connectivity == UNKNOWN
    ensures u.batteryLevel.Some? <==> req.batteryLevel.Some? && req.batteryLevel.value.Num?
    ensures u.batteryLevel.Some? ==> req.batteryLevel == Some(Num(u.batteryLevel.value))
    ensures u.isCharging.Some? <==> req.isCharging.Some? && req.isCharging.value.Bool?
    ensures u.isCharging.Some? ==> req.isCharging == Some(Bool(u.isCharging.value))
  {
    StatusUpdate(
      now,
      OrElse(req.connectivity, UNKNOWN),
      Classify(req.connectivity),
      match req.batteryLevel { case Some(Num(n)) => Some(n) case _ => None },
      match req.isCharging { case Some(Bool(b)) => Some(b) case _ => None })
  }

  /** `findOneAndUpdate` with a status update: the fields it sets change,
      every other field keeps its stored value. */
  function ApplyStatus(d: Device, u: StatusUpdate): (r: Device)
    ensures r.lastSeenAt == u.lastSeenAt && r.connectivity == u.connectivity && r.status == u.status
    ensures r.batteryLevel == (if u.batteryLevel.Some? then u.batteryLevel.value else d.batteryLevel)
    ensures r.isCharging == (if u.isCharging.Some? then u.isCharging.value else d.isCharging)
    ensures r.uniqueId == d.uniqueId && r.model == d.model && r.manufacturer == d.manufacturer
    ensures r.androidVersion == d.androidVersion && r.brand == d.brand && r.simOperator == d.simOperator
    ensures r.createdAt == d.createdAt && r.callStatusCode == d.callStatusCode
    ensures WellFormed(d) && u.connectivity != "" ==> WellFormed(r)
  {
    d.(lastSeenAt := u.lastSeenAt, connectivity := u.connectivity, status := u.status,
       batteryLevel := if u.batteryLevel.Some? then u.batteryLevel.value else d.batteryLevel,
       isCharging := if u.isCharging.Some? then u.isCharging.value else d.isCharging)
  }

  /** The `$or` filter of the device list: brand, model, Android version or
      id contains the search text, ignoring case. */
  predicate Selected(d: Device, search: Option<string>)
  {
    !Given(search)
    || ContainsIgnoringCase(d.brand, search.value)
    || ContainsIgnoringCase(d.model, search.value)
    || ContainsIgnoringCase(d.androidVersion, search.value)
    || ContainsIgnoringCase(d.uniqueId, search.value)
  }

  /** The search ignores case: searching for the capitalised text selects
      the same devices, and no search selects every device. */
  lemma SelectedIgnoresCase(d: Device, search: string)
    ensures Selected(d, Some(Upper(search))) <==> Selected(d, Some(search))
    ensures Selected(d, None) && Selected(d, Some(""))
  {
    LowerOfUpper(search);
  }

  /** The device list: the selected devices, oldest first when `sort` is
      exactly "oldest" and newest first otherwise. */
  function ListDevices(ds: seq<Device>, search: Option<string>, sort: Option<string>): (r: seq<Device>)
    ensures sort == Some("oldest") ==> SortedAsc(r, CreatedAt)
    ensures sort != Some("oldest") ==> SortedDesc(r, CreatedAt)
    ensures forall d :: multiset(r)[d] == if Selected(d, search) then multiset(ds)[d] else 0
  {
    var selected := Filter(ds, d => Selected(d, search));
    if sort == Some("oldest") then SortAsc(selected, CreatedAt) else SortDesc(selected, CreatedAt)
  }

  /** The device collection. */
  class DeviceStore {
    var devices: seq<Device>

    ghost predicate Valid()
      reads this
    {
      forall i :: 0 <= i < |devices| ==> WellFormed(devices[i])
    }

    constructor()
      ensures Valid() && devices == []
    {
      devices := [];
    }

    /** `registerDevice`: a known id is refreshed in place, anything else
        creates a record under the supplied or a generated id. */
    method RegisterDevice(req: Registration, randomDigits: string, now: Time)
      returns (reply: Reply<string>, emitted: ListUpdate)
      requires Valid()
      modifies this
      ensures Valid()
      ensures var found := if Given(req.uniqueId) then FindDevice(old(devices), req.uniqueId.value) else None;
        match found
        case Some(i) =>
          && devices == old(devices)[i := Refreshed(old(devices)[i], now)]
          && reply == Ok(OK, req.uniqueId.value)
          && emitted == ListUpdate(DeviceUpdated, devices[i])
        case None =>
          var id := AssignedId(req.uniqueId, randomDigits);
          && devices == old(devices) + [NewDevice(req, id, now)]
          && reply == Ok(CREATED, id)
          && emitted == ListUpdate(DeviceRegistered, NewDevice(req, id, now))
    {
      if Given(req.uniqueId) {
        var found := FindDevice(devices, req.uniqueId.value);
        if found.Some? {
          var i := found.value;
          devices := devices[i := Refreshed(devices[i], now)];
          return Ok(OK, devices[i].uniqueId), ListUpdate(DeviceUpdated, devices[i]);
        }
      }
      var id := AssignedId(req.uniqueId, randomDigits);
      var d := NewDevice(req, id, now);
      devices := devices + [d];
      reply, emitted := Ok(CREATED, id), ListUpdate(DeviceRegistered, d);
    }

    /** `updateStatus`: a report without device id is refused, one for an
        unknown id is not found, and one for a known id updates that record. */
    method UpdateStatus(req: StatusReport, now: Time) returns (reply: Reply<()>, emitted: Option<ListUpdate>)
      requires Valid()
      modifies this
      ensures Valid()
      ensures !Given(req.deviceId) ==>
        reply == Err(BAD_REQUEST) && emitted == None && devices == old(devices)
      ensures Given(req.deviceId) && FindDevice(old(devices), req.deviceId.value).None? ==>
        reply == Err(NOT_FOUND) && emitted == None && devices == old(devices)
      ensures Given(req.deviceId) && FindDevice(old(devices), req.deviceId.value).Some? ==>
        var i := FindDevice(old(devices), req.deviceId.value).value;
        && devices == old(devices)[i := ApplyStatus(old(devices)[i], BuildStatusUpdate(req, now))]
        && reply == Ok(OK, ())
        && emitted == Some(ListUpdate(DeviceStatusChanged, devices[i]))
    {
      if !Given(req.deviceId) {
        return Err(BAD_REQUEST), None;
      }
      var update := BuildStatusUpdate(req, now);
      var found := FindDevice(devices, req.deviceId.value);
      if found.None? {
        return Err(NOT_FOUND), None;
      }
      var i := found.value;
      devices := devices[i := ApplyStatus(devices[i], update)];
      reply, emitted := Ok(OK, ()), Some(ListUpdate(DeviceStatusChanged, devices[i]));
    }

    /** `device.callStatusCode = code; await device.save()`, as the call
        code handler does after saving a code. */
    method RecordCallStatusCode(i: nat, code: string)
      requires Valid() && i < |devices|
      modifies this
      ensures Valid()
      ensures devices == old(devices)[i := old(devices)[i].(callStatusCode := Some(code))]
    {
      devices := devices[i := devices[i].(callStatusCode := Some(code))];
    }

    /** `getAllDevices` */
    function GetAllDevices(search: Option<string>, sort: Option<string>): (r: Reply<seq<Device>>)
      reads this
      ensures r.Ok? && r.code == OK
      ensures sort == Some("oldest") ==> SortedAsc(r.data, CreatedAt)
      ensures sort != Some("oldest") ==> SortedDesc(r.data, CreatedAt)
      ensures forall d :: multiset(r.data)[d] == if Selected(d, search) then multiset(devices)[d] else 0
    {
      Ok(OK, ListDevices(devices, search, sort))
    }

    /** `getDeviceById` */
    function GetDeviceById(id: string): (r: Reply<Device>)
      requires Valid()
      reads this
      ensures id == "" ==> r == Err(BAD_REQUEST)
      ensures id != "" && (forall j :: 0 <= j < |devices| ==> devices[j].uniqueId != id) ==> r == Err(NOT_FOUND)
      ensures id != "" && FindDevice(devices, id).Some? ==> r == Ok(OK, devices[FindDevice(devices, id).value])
      ensures r.Ok? ==> r.code == OK && r.data in devices && r.data.uniqueId == id
      ensures r.Ok? ==> WellFormed(r.data)
    {
      if id == "" then Err(BAD_REQUEST)
      else
        match FindDevice(devices, id)
        case None => Err(NOT_FOUND)
        case Some(i) => Ok(OK, devices[i])
    }
  }
}
