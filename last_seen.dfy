/** Last-seen presence (controllers/lastSeen.controller.js): one record per
    device id, switched between active and inactive by Online/Offline
    reports, remembering when the device was last reported offline. */
module LastSeenPresence {
  import opened Common

  /** The two connectivity values an update accepts. */
  datatype Connectivity = Online | Offline

  datatype LastSeen = LastSeen(
    deviceId: string,
    status: Activity,
    lastSeenAt: Option<Time>,
    createdAt: Time,
    updatedAt: Time)

  /** What a read answers with: the stored record, or the placeholder for a
      device that has never reported. */
  datatype LastSeenData =
    | Stored(record: LastSeen)
    | NoRecordYet(deviceId: string, status: Activity, lastSeenAt: Option<Time>)

  /** `["Online", "Offline"].includes(connectivity)`: only those two exact
      strings are accepted; anything else, in any letter case or of any other
      type, is a bad request. */
  function ParseConnectivity(connectivity: Option<Value>): (r: Result<Connectivity>)
    ensures r == Accept(Online) <==> connectivity == Some(Str("Online"))
    ensures r == Accept(Offline) <==> connectivity == Some(Str("Offline"))
    ensures r.Refuse? ==> r.status == BAD_REQUEST
  {
    match connectivity
    case Some(Str(s)) =>
      if s == "Online" then Accept(Online)
      else if s == "Offline" then Accept(Offline)
      else Refuse(BAD_REQUEST)
    case _ => Refuse(BAD_REQUEST)
  }

  /** `isOnline ? "active" : "inactive"` */
  function ActivityOf(c: Connectivity): (a: Activity)
    ensures a == Active <==> c == Online
  {
    if c == Online then Active else Inactive
  }

  /** The record after `findOneAndUpdate(…, { upsert: true })`: the status and
      `updatedAt` are set, `lastSeenAt` only on Offline, and `createdAt` only
      when the record is inserted. */
  function Upsert(prev: Option<LastSeen>, id: string, c: Connectivity, now: Time): (r: LastSeen)
    ensures r.deviceId == id && r.status == ActivityOf(c) && r.updatedAt == now
    ensures c == Offline ==> r.lastSeenAt == Some(now)
    ensures c == Online && prev.Some? ==> r.lastSeenAt == prev.value.lastSeenAt
    ensures c == Online && prev.None? ==> r.lastSeenAt == None
    ensures prev.Some? ==> r.createdAt == prev.value.createdAt
    ensures prev.None? ==> r.createdAt == now
  {
    var lastSeenAt := if c == Offline then Some(now) else if prev.Some? then prev.value.lastSeenAt else None;
    var createdAt := if prev.Some? then prev.value.createdAt else now;
    LastSeen(id, ActivityOf(c), lastSeenAt, createdAt, now)
  }

  /** One accepted report: its connectivity and the time it arrived. */
  datatype Report = Report(c: Connectivity, at: Time)

  /** The record of one device after a run of accepted reports, oldest first. */
  function UpsertAll(prev: Option<LastSeen>, id: string, reports: seq<Report>): (r: Option<LastSeen>)
    ensures reports == [] ==> r == prev
    ensures reports != [] ==> r.Some? && r.value.deviceId == id
    ensures reports != [] ==>
      r.value.status == ActivityOf(reports[|reports| - 1].c) && r.value.updatedAt == reports[|reports| - 1].at
    decreases |reports|
  {
    if reports == [] then prev
    else
      var last := reports[|reports| - 1];
      Some(Upsert(UpsertAll(prev, id, reports[..|reports| - 1]), id, last.c, last.at))
  }

  /** The time of the last Offline report of a run, if it has one. */
  function LastOffline(reports: seq<Report>): (r: Option<Time>)
    ensures r.Some? <==> exists i :: 0 <= i < |reports| && reports[i].c == Offline
    ensures r.Some? ==> exists i :: (0 <= i < |reports| && reports[i] == Report(Offline, r.value)
      && forall j :: i < j < |reports| ==> reports[j].c == Online)
    decreases |reports|
  {
    if reports == [] then None
    else
      var n := |reports| - 1;
      if reports[n].c == Offline then Some(reports[n].at)
      else
        var r := LastOffline(reports[..n]);
        assert forall i :: 0 <= i < n ==> reports[..n][i] == reports[i];
        r
  }

  /** After a run of reports on a device, its record exists; its status is
      that of the last report, `lastSeenAt` is the time of the last Offline
      report (or what it was before the run when there was none), and
      `createdAt` is the time of the first insertion. */
  lemma {:induction false} History(prev: Option<LastSeen>, id: string, reports: seq<Report>)
    requires reports != []
    requires prev.Some? ==> prev.value.deviceId == id
    ensures var r := UpsertAll(prev, id, reports);
      && r.Some? && r.value.deviceId == id
      && r.value.status == ActivityOf(reports[|reports| - 1].c)
      && r.value.updatedAt == reports[|reports| - 1].at
      && r.value.lastSeenAt == (if LastOffline(reports).Some? then LastOffline(reports)
                                else if prev.Some? then prev.value.lastSeenAt else None)
      && r.value.createdAt == (if prev.Some? then prev.value.createdAt else reports[0].at)
    decreases |reports|
  {
    var n := |reports| - 1;
    if n > 0 {
      History(prev, id, reports[..n]);
      assert reports[..n][0] == reports[0];
    }
  }

  /** The last-seen collection, keyed by device id. */
  class LastSeenStore {
    var records: map<string, LastSeen>

    /** One record per device: each is stored under its own id. */
    ghost predicate Valid()
      reads this
    {
      forall id :: id in records ==> records[id].deviceId == id
    }

    constructor()
      ensures Valid() && records == map[]
    {
      records := map[];
    }

    /** `getLastSeenByDeviceId`: the record of the device, or an inactive
        placeholder that is not stored. */
    function GetLastSeenByDeviceId(id: string): (r: Reply<LastSeenData>)
      reads this
      ensures r.Ok? && r.code == OK
      ensures id in records ==> r.data == Stored(records[id])
      ensures id !in records ==> r.data == NoRecordYet(id, Inactive, None)
    {
      match Lookup(records, id)
      case Some(rec) => Ok(OK, Stored(rec))
      case None => Ok(OK, NoRecordYet(id, Inactive, None))
    }

    /** `updateLastSeenStatus`: a bad connectivity writes nothing; a good one
        upserts the device's record and leaves every other record as it was. */
    method UpdateLastSeenStatus(id: string, connectivity: Option<Value>, now: Time) returns (reply: Reply<LastSeen>)
      requires Valid()
      modifies this
      ensures Valid()
      ensures ParseConnectivity(connectivity).Refuse? ==> reply == Err(BAD_REQUEST) && records == old(records)
      ensures ParseConnectivity(connectivity).Accept? ==>
        var c := ParseConnectivity(connectivity).value;
        && records == old(records)[id := Upsert(Lookup(old(records), id), id, c, now)]
        && reply == Ok(OK, records[id])
    {
      var parsed := ParseConnectivity(connectivity);
      if parsed.Refuse? {
        return Err(parsed.status);
      }
      var rec := Upsert(Lookup(records, id), id, parsed.value, now);
      records := records[id := rec];
      reply := Ok(OK, rec);
    }
  }
}
