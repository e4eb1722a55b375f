/** The socket handler of server.js: each connection keeps the device id it
    was last told (`currentDeviceId`) and every `deviceStatus` broadcast is
    appended to one shared output log. */
module Realtime {
  import opened Common

  /** The payload of an incoming `deviceStatus` message. */
  datatype StatusMessage = StatusMessage(uniqueid: Option<string>, connectivity: Option<string>)

  /** One `io.emit("deviceStatus", …)` to every client. */
  datatype StatusBroadcast = StatusBroadcast(uniqueid: string, connectivity: Option<string>, updatedAt: Time)

  /** The events a connection receives, in the order they arrive. */
  datatype SocketEvent =
    | RegisterDevice(uniqueid: Option<string>)
    | DeviceStatus(data: Option<StatusMessage>, at: Time)
    | Disconnect(at: Time)

  /** A `deviceStatus` message is rebroadcast unchanged when, and only when,
      it names a device. */
  function StatusRelay(data: Option<StatusMessage>, now: Time): (out: seq<StatusBroadcast>)
    ensures out == [] <==> !(data.Some? && Given(data.value.uniqueid))
    ensures out != [] ==> out == [StatusBroadcast(data.value.uniqueid.value, data.value.connectivity, now)]
  {
    match data
    case Some(StatusMessage(id, connectivity)) =>
      if Given(id) then [StatusBroadcast(id.value, connectivity, now)] else []
    case None => []
  }

  /** What a disconnect broadcasts: one "Offline" notice for the stored id
      when there is one, nothing otherwise. */
  function OfflineNotice(current: Option<string>, now: Time): (out: seq<StatusBroadcast>)
    ensures |out| <= 1
    ensures |out| == 1 <==> Given(current)
    ensures out != [] ==> out[0] == StatusBroadcast(current.value, Some("Offline"), now)
  {
    if Given(current) then [StatusBroadcast(current.value, Some("Offline"), now)] else []
  }

  /** The stored id after a disconnect: cleared when it was set, left as it
      was (absent or empty) otherwise. */
  function AfterDisconnect(current: Option<string>): (next: Option<string>)
    ensures !Given(next)
    ensures Given(current) ==> next == None
    ensures !Given(current) ==> next == current
  {
    if Given(current) then None else current
  }

  /** A second disconnect emits nothing and changes nothing. */
  lemma RepeatedDisconnect(current: Option<string>, t: Time)
    ensures OfflineNotice(AfterDisconnect(current), t) == []
    ensures AfterDisconnect(AfterDisconnect(current)) == AfterDisconnect(current)
  {
  }

  /** One event on a connection: the new stored id and what is broadcast. */
  function Step(current: Option<string>, e: SocketEvent): (r: (Option<string>, seq<StatusBroadcast>))
    ensures |r.1| <= 1
    ensures forall b :: b in r.1 ==> b.uniqueid != ""
    ensures !e.RegisterDevice? ==> r.0 == current || r.0 == None
    ensures e.Disconnect? ==> !Given(r.0)
  {
    match e
    case RegisterDevice(id) => (id, [])
    case DeviceStatus(data, at) => (current, StatusRelay(data, at))
    case Disconnect(at) => (AfterDisconnect(current), OfflineNotice(current, at))
  }

  /** The stored id after a run of events, starting from `current`. */
  function Final(current: Option<string>, events: seq<SocketEvent>): (r: Option<string>)
    ensures r == current || r == None || exists i :: 0 <= i < |events| && events[i] == RegisterDevice(r)
    decreases |events|
  {
    if events == [] then current
    else
      var r := Final(Step(current, events[0]).0, events[1..]);
      assert forall i :: 0 <= i < |events| - 1 ==> events[1..][i] == events[i + 1];
      r
  }

  /** The broadcasts of a run of events, in order. */
  function Emitted(current: Option<string>, events: seq<SocketEvent>): (r: seq<StatusBroadcast>)
    ensures |r| <= |events|
    ensures forall b :: b in r ==> b.uniqueid != ""
    decreases |events|
  {
    if events == [] then []
    else
      var (next, out) := Step(current, events[0]);
      out + Emitted(next, events[1..])
  }

  /** How many disconnects of a run broadcast an "Offline" notice. */
  function OfflineNotices(current: Option<string>, events: seq<SocketEvent>): nat
    decreases |events|
  {
    if events == [] then 0
    else
      var here := if events[0].Disconnect? && Given(current) then 1 else 0;
      here + OfflineNotices(Step(current, events[0]).0, events[1..])
  }

  /** How many `deviceStatus` messages of a run name a device. */
  function Relayed(events: seq<SocketEvent>): nat
    decreases |events|
  {
    if events == [] then 0
    else
      var e := events[0];
      (if e.DeviceStatus? && e.data.Some? && Given(e.data.value.uniqueid) then 1 else 0) + Relayed(events[1..])
  }

  /** Everything a run broadcasts is either a relayed status message or an
      "Offline" notice of a disconnect, so the notices counted above are
      exactly the broadcasts that are not relays. */
  lemma {:induction false} EmittedSplits(current: Option<string>, events: seq<SocketEvent>)
    ensures |Emitted(current, events)| == OfflineNotices(current, events) + Relayed(events)
    decreases |events|
  {
    if events != [] {
      EmittedSplits(Step(current, events[0]).0, events[1..]);
    }
  }

  /** How many registrations of a run name a device. */
  function Registrations(events: seq<SocketEvent>): nat
    decreases |events|
  {
    if events == [] then 0
    else (if events[0].RegisterDevice? && Given(events[0].uniqueid) then 1 else 0) + Registrations(events[1..])
  }

  /** Each registration is announced offline at most once: a connection
      that starts unregistered broadcasts no more "Offline" notices than it
      received registrations naming a device. */
  lemma {:induction false} NoticesBoundedByRegistrations(current: Option<string>, events: seq<SocketEvent>)
    ensures OfflineNotices(current, events) <= Registrations(events) + (if Given(current) then 1 else 0)
    decreases |events|
  {
    if events != [] {
      NoticesBoundedByRegistrations(Step(current, events[0]).0, events[1..]);
    }
  }

  /** A connection that never registers a device, and whose status messages
      name none, broadcasts nothing. */
  lemma {:induction false} UnregisteredIsSilent(events: seq<SocketEvent>)
    requires forall i :: 0 <= i < |events| ==> !events[i].RegisterDevice?
    requires forall i :: 0 <= i < |events| ==> events[i].DeviceStatus? ==>
      events[i].data.None? || !Given(events[i].data.value.uniqueid)
    ensures Emitted(None, events) == []
    ensures Final(None, events) == None
    decreases |events|
  {
    if events != [] {
      UnregisteredIsSilent(events[1..]);
    }
  }

  /** The shared `io` object, seen as the log of what it broadcast. */
  class Broadcaster {
    var emitted: seq<StatusBroadcast>

    constructor()
      ensures emitted == []
    {
      emitted := [];
    }
  }

  /** One client connection: the closure of `io.on("connection", …)`. */
  class Connection {
    const io: Broadcaster
    var currentDeviceId: Option<string>

    /** A new connection has no device id yet. */
    constructor(io: Broadcaster)
      ensures this.io == io && currentDeviceId == None
    {
      this.io := io;
      currentDeviceId := None;
    }

    /** `registerDevice`: stores the id as sent, replacing any earlier one. */
    method OnRegisterDevice(uniqueid: Option<string>)
      modifies this
      ensures currentDeviceId == uniqueid
    {
      currentDeviceId := uniqueid;
    }

    /** `deviceStatus`: rebroadcasts a message that names a device. */
    method OnDeviceStatus(data: Option<StatusMessage>, now: Time)
      modifies io
      ensures io.emitted == old(io.emitted) + StatusRelay(data, now)
    {
      match data {
        case Some(StatusMessage(id, connectivity)) =>
          if Given(id) {
            io.emitted := io.emitted + [StatusBroadcast(id.value, connectivity, now)];
          }
        case None =>
      }
    }

    /** `disconnect`: announces the stored id offline and clears it. */
    method OnDisconnect(now: Time)
      modifies this, io
      ensures io.emitted == old(io.emitted) + OfflineNotice(old(currentDeviceId), now)
      ensures currentDeviceId == AfterDisconnect(old(currentDeviceId))
    {
      if Given(currentDeviceId) {
        io.emitted := io.emitted + [StatusBroadcast(currentDeviceId.value, Some("Offline"), now)];
        currentDeviceId := None;
      }
    }

    /** Delivers one event to its handler. */
    method Handle(e: SocketEvent)
      modifies this, io
      ensures currentDeviceId == Step(old(currentDeviceId), e).0
      ensures io.emitted == old(io.emitted) + Step(old(currentDeviceId), e).1
    {
      match e {
        case RegisterDevice(id) => OnRegisterDevice(id);
        case DeviceStatus(data, at) => OnDeviceStatus(data, at);
        case Disconnect(at) => OnDisconnect(at);
      }
    }
  }
}
