/** Incoming SMS notifications (controllers/notificationController.js):
    validated and defaulted on receipt, appended to one collection, and read
    back newest first under a clamped limit. */
module Notifications {
  import opened Common
  import opened Ordering

  datatype Notification = Notification(
    uniqueid: string,
    sender: string,
    senderNumber: string,
    receiverNumber: string,
    title: string,
    body: string,
    simSlot: SimSlot,
    timestamp: Time,
    createdAt: Time)

  /** The body of a receipt; None is a field left undefined. */
  datatype NotificationRequest = NotificationRequest(
    uniqueid: Option<string>,
    sender: Option<string>,
    senderNumber: Option<string>,
    receiverNumber: Option<string>,
    title: Option<string>,
    body: Option<string>,
    simSlot: NumberArg,
    timestamp: Option<Time>)

  const UNAVAILABLE: string := "Unavailable"
  const DEFAULT_TITLE: string := "New SMS"

  const DEFAULT_LIMIT: nat := 50
  const MAX_LIMIT: nat := 200
  const DEFAULT_DEVICE_LIMIT: nat := 3
  const MAX_DEVICE_LIMIT: nat := 50

  function NotificationCreatedAt(n: Notification): int
  {
    n.createdAt
  }

  /** The `{ uniqueid }` filter. */
  function ForDevice(uniqueid: string): Notification -> bool
  {
    (n: Notification) => n.uniqueid == uniqueid
  }

  function Everything(n: Notification): bool
  {
    true
  }

  /** The slot of a receipt: undefined, null and "" mean slot 0; any other
      value must convert to 0 or 1. */
  function ReceivedSlot(a: NumberArg): (r: Result<SimSlot>)
    ensures a.Undefined? || a.NullArg? || a.Blank? ==> r == Accept(0)
    ensures a.Numeric? ==> (r.Accept? <==> a.n == 0 || a.n == 1)
    ensures a.Numeric? && r.Accept? ==> r.value == a.n
    ensures a.NotANumber? ==> r.Refuse?
    ensures r.Refuse? ==> r.status == BAD_REQUEST
  {
    if a.Undefined? || a.NullArg? || a.Blank? then Accept(0)
    else
      match SlotOf(a)
      case Some(slot) => Accept(slot)
      case None => Refuse(BAD_REQUEST)
  }

  /** The notification a receipt stores, or 400: the device id, receiving
      number and text are required; sender and sender number default to
      "Unavailable" and the title to "New SMS". */
  function Received(req: NotificationRequest, now: Time): (r: Result<Notification>)
    ensures !Given(req.uniqueid) || !Given(req.receiverNumber) || !Given(req.body) ==> r == Refuse(BAD_REQUEST)
    ensures r.Accept? <==>
      Given(req.uniqueid) && Given(req.receiverNumber) && Given(req.body) && ReceivedSlot(req.simSlot).Accept?
    ensures r.Refuse? ==> r.status == BAD_REQUEST
    ensures r.Accept? ==> var n := r.value;
      && n.uniqueid == req.uniqueid.value && n.receiverNumber == req.receiverNumber.value
      && n.body == req.body.value
      && n.sender == OrElse(req.sender, UNAVAILABLE)
      && n.senderNumber == OrElse(req.senderNumber, UNAVAILABLE)
      && n.title == OrElse(req.title, DEFAULT_TITLE)
      && Accept(n.simSlot) == ReceivedSlot(req.simSlot)
      && n.timestamp == TimeOr(req.timestamp, now) && n.createdAt == now
  {
    if !Given(req.uniqueid) || !Given(req.receiverNumber) || !Given(req.body) then Refuse(BAD_REQUEST)
    else
      match ReceivedSlot(req.simSlot)
      case Refuse(status) => Refuse(status)
      case Accept(slot) =>
        Accept(Notification(
          req.uniqueid.value,
          OrElse(req.sender, UNAVAILABLE),
          OrElse(req.senderNumber, UNAVAILABLE),
          req.receiverNumber.value,
          OrElse(req.title, DEFAULT_TITLE),
          req.body.value,
          slot,
          TimeOr(req.timestamp, now),
          now))
  }

  function Abs(n: int): nat
  {
    if n < 0 then -n else n
  }

  /** How many of `available` matching documents `.limit(n)` lets through: 0
      means no limit, and a negative limit is taken by its absolute value
      (returned in a single batch). */
  function LimitedCount(limit: int, available: nat): (r: nat)
    ensures r <= available
    ensures limit == 0 ==> r == available
    ensures limit != 0 ==> r == Min(Abs(limit), available)
  {
    if limit == 0 then available else Min(Abs(limit), available)
  }

  /** `Number(limit) || 50`, then lowered to 200 when above it, as written. */
  function GlobalLimitAsWritten(a: NumberArg): (r: int)
    ensures r <= MAX_LIMIT
    ensures r != 0
    ensures ToNumber(a).None? || ToNumber(a) == Some(0) ==> r == DEFAULT_LIMIT
    ensures ToNumber(a).Some? && ToNumber(a).value != 0 ==> r == Min(ToNumber(a).value, MAX_LIMIT)
  {
    var n := match ToNumber(a) case Some(n) => n case None => 0;
    var limit := if n == 0 then DEFAULT_LIMIT else n;
    if limit > MAX_LIMIT then MAX_LIMIT else limit
  }

  /** `Math.min(Number(limit) || 3, 50)`, as written. */
  function DeviceLimitAsWritten(a: NumberArg): (r: int)
    ensures r <= MAX_DEVICE_LIMIT
    ensures r != 0
    ensures ToNumber(a).None? || ToNumber(a) == Some(0) ==> r == DEFAULT_DEVICE_LIMIT
    ensures ToNumber(a).Some? && ToNumber(a).value != 0 ==> r == Min(ToNumber(a).value, MAX_DEVICE_LIMIT)
  {
    var n := match ToNumber(a) case Some(n) => n case None => 0;
    Min(if n == 0 then DEFAULT_DEVICE_LIMIT else n, MAX_DEVICE_LIMIT)
  }

  /** A negative limit passes both caps, and the server then returns as many
      documents as its absolute value: `?limit=-1000` lists a thousand
      notifications where at most 200 (or 50 for one device) were meant. */
  lemma NegativeLimitPassesCap()
    ensures GlobalLimitAsWritten(Numeric(-1000)) == -1000
    ensures LimitedCount(GlobalLimitAsWritten(Numeric(-1000)), 1000) == 1000 > MAX_LIMIT
    ensures DeviceLimitAsWritten(Numeric(-1000)) == -1000
    ensures LimitedCount(DeviceLimitAsWritten(Numeric(-1000)), 1000) == 1000 > MAX_DEVICE_LIMIT
  {
  }

  /** The global listing limit as intended: 50 unless a positive number is
      asked for, and never above 200. */
  function GlobalLimit(a: NumberArg): (r: nat)
    ensures 1 <= r <= MAX_LIMIT
    ensures ToNumber(a).Some? && 1 <= ToNumber(a).value <= MAX_LIMIT ==> r == ToNumber(a).value
    ensures ToNumber(a).Some? && ToNumber(a).value > MAX_LIMIT ==> r == MAX_LIMIT
    ensures ToNumber(a).None? || ToNumber(a).value <= 0 ==> r == DEFAULT_LIMIT
  {
    match ToNumber(a)
    case Some(n) => if n <= 0 then DEFAULT_LIMIT else Min(n, MAX_LIMIT)
    case None => DEFAULT_LIMIT
  }

  /** The per-device listing limit as intended: 3 unless a positive number
      is asked for, and never above 50. */
  function DeviceLimit(a: NumberArg): (r: nat)
    ensures 1 <= r <= MAX_DEVICE_LIMIT
    ensures ToNumber(a).Some? && 1 <= ToNumber(a).value <= MAX_DEVICE_LIMIT ==> r == ToNumber(a).value
    ensures ToNumber(a).Some? && ToNumber(a).value > MAX_DEVICE_LIMIT ==> r == MAX_DEVICE_LIMIT
    ensures ToNumber(a).None? || ToNumber(a).value <= 0 ==> r == DEFAULT_DEVICE_LIMIT
  {
    match ToNumber(a)
    case Some(n) => if n <= 0 then DEFAULT_DEVICE_LIMIT else Min(n, MAX_DEVICE_LIMIT)
    case None => DEFAULT_DEVICE_LIMIT
  }

  /** The corrected limits differ from the written ones only on negative
      numbers, and on every input they let through at most the cap. */
  lemma LimitsAgreeExceptNegative(a: NumberArg, available: nat)
    ensures !(ToNumber(a).Some? && ToNumber(a).value < 0) ==>
      GlobalLimit(a) == GlobalLimitAsWritten(a) && DeviceLimit(a) == DeviceLimitAsWritten(a)
    ensures LimitedCount(GlobalLimit(a), available) <= MAX_LIMIT
    ensures LimitedCount(DeviceLimit(a), available) <= MAX_DEVICE_LIMIT
  {
  }

  /** The notification collection, in insertion order. */
  class NotificationStore {
    var notifications: seq<Notification>

    constructor()
      ensures notifications == []
    {
      notifications := [];
    }

    /** `receiveNotification`: a refused receipt writes nothing; an accepted
        one appends exactly one notification and answers 201. */
    method ReceiveNotification(req: NotificationRequest, now: Time) returns (reply: Reply<Notification>)
      modifies this
      ensures Received(req, now).Refuse? ==>
        reply == Err(BAD_REQUEST) && notifications == old(notifications)
      ensures Received(req, now).Accept? ==>
        var n := Received(req, now).value;
        notifications == old(notifications) + [n] && reply == Ok(CREATED, n)
    {
      var received := Received(req, now);
      if received.Refuse? {
        return Err(received.status);
      }
      notifications := notifications + [received.value];
      reply := Ok(CREATED, received.value);
    }

    /** `getAllNotifications` under the corrected limit: the newest
        notifications, at most 200, and as many as the written handler
        returns whenever the limit is not negative. */
    function GetAllNotifications(limit: NumberArg): (r: Reply<seq<Notification>>)
      reads this
      ensures r.Ok? && r.code == OK
      ensures |r.data| == Min(GlobalLimit(limit), |notifications|) <= MAX_LIMIT
      ensures !(ToNumber(limit).Some? && ToNumber(limit).value < 0) ==>
        |r.data| == LimitedCount(GlobalLimitAsWritten(limit), |notifications|)
      ensures SortedDesc(r.data, NotificationCreatedAt)
      ensures multiset(r.data) <= multiset(notifications)
      ensures forall x, y :: x in multiset(notifications) - multiset(r.data) && y in r.data ==>
        x.createdAt <= y.createdAt
    {
      var r := Newest(notifications, Everything, NotificationCreatedAt, GlobalLimit(limit));
      FilterEverything(notifications);
      LimitsAgreeExceptNegative(limit, |notifications|);
      Ok(OK, r)
    }

    /** `getNotificationsByDevice` under the corrected limit: the device's
        newest notifications, at most 50, and as many as the written handler
        returns whenever the limit is not negative. */
    function GetNotificationsByDevice(uniqueid: string, limit: NumberArg): (r: Reply<seq<Notification>>)
      reads this
      ensures r.Ok? && r.code == OK
      ensures |r.data| == Min(DeviceLimit(limit), |Filter(notifications, ForDevice(uniqueid))|) <= MAX_DEVICE_LIMIT
      ensures !(ToNumber(limit).Some? && ToNumber(limit).value < 0) ==>
        |r.data| == LimitedCount(DeviceLimitAsWritten(limit), |Filter(notifications, ForDevice(uniqueid))|)
      ensures forall n :: n in r.data ==> n.uniqueid == uniqueid
      ensures SortedDesc(r.data, NotificationCreatedAt)
      ensures multiset(r.data) <= multiset(notifications)
      ensures forall x, y :: x in multiset(Filter(notifications, ForDevice(uniqueid))) - multiset(r.data) && y in r.data ==>
        x.createdAt <= y.createdAt
    {
      var keep := ForDevice(uniqueid);
      var r := Newest(notifications, keep, NotificationCreatedAt, DeviceLimit(limit));
      LimitsAgreeExceptNegative(limit, |Filter(notifications, keep)|);
      assert multiset(Filter(notifications, keep)) <= multiset(notifications);
      Ok(OK, r)
    }
  }

  /** The filter that keeps everything keeps the collection as it is. */
  lemma FilterEverything(s: seq<Notification>)
    ensures multiset(Filter(s, Everything)) == multiset(s)
  {
    assert forall x :: multiset(Filter(s, Everything))[x] == multiset(s)[x];
  }
}
