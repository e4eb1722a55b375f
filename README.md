# Device management backend: a Dafny model of its request handlers

This project models the decision rules of a Node.js backend that manages
Android devices: their registration and status reports, their last-seen
presence, call-forwarding codes and history, SIM information, outgoing SMS,
incoming notifications, a single admin forwarding number, and submitted
forms. It also models the socket handler through which devices announce
themselves and go offline.

Each MongoDB collection is a class with one field. Most are a `map` keyed
by the field the handler looks records up by. The call-forwarding log and
the notifications are a `seq` that handlers only append to. The devices are
a `seq` indexed by `_id`: registration appends to it, and status reports and
call codes update a device in place at its index. Each Express handler is a method that validates its input, then
updates or creates a record, and returns a `Reply` (a status code and a
payload). The method's contract states the whole new state in terms of the
old one. The pure rules each handler applies (validation order, defaults,
merges, clamps, classification) are functions whose contracts state what
they mean. Lemmas relate those functions across several calls: histories of
updates, idempotence, ordering and bounds.

Modules:

- `Common`: JavaScript values as the handlers see them. This covers
  truthiness, `||` defaults, `Number(x)` and the SIM slot domain `{0, 1}`,
  plus the reply type.
- `Strings`: ASCII `toLowerCase`/`toUpperCase`, `includes`, `trim`, and the
  trim-then-lowercase id normalisation.
- `Ordering`: `find(filter).sort({ createdAt: ±1 }).limit(n)` as functions
  on sequences.
- `Devices`: `controllers/deviceController.js`.
- `Realtime`: the per-connection socket state of `server.js`.
- `LastSeenPresence`: `controllers/lastSeen.controller.js`.
- `DeviceStatusReports`: `controllers/statusController.js`.
- `CallCodes`: `controllers/callController.js`.
- `CallForwardLogs`: `controllers/callLogController.js`.
- `SimInfo`: `controllers/simInfoController.js`.
- `OutgoingSms`: `controllers/smsController.js`.
- `Notifications`: `controllers/notificationController.js`.
- `AdminNumber`: `controllers/adminController.js`.
- `Forms`: `controllers/formController.js`.

The code keeps no registry from device ids to live connections. `server.js`
keeps one variable per connection and stores the id exactly as sent, so two
connections may hold the same id and each announces it offline when it
closes. Ids are not trimmed or case-folded anywhere except in the SIM
lookup. The model follows the code in both respects.

Modelling conventions:

- **Inputs that may be undefined.** `None` stands for an undefined or null
  field wherever the handler cannot tell the two apart (it tests truthiness
  or membership in a list). `Given(s)` is JavaScript truthiness of a string
  field. The call-code update refuses only undefined fields, so its request
  keeps undefined, null and a string apart.
- **Current time.** Every `new Date()` is a `now` parameter.
- **Random ids.** The random digits of `generateDeviceId` are a parameter.
- **Device `_id`.** A device's `_id` is its index in the device collection.
  Devices are never deleted, so the index is stable.
- **Schema failures.** When a Mongoose schema rejects a value, the save
  throws and the handler answers 500 with nothing written. The model treats
  these cases as refusals with status 500: a required field that is empty, a
  value outside an enum, or a value that cannot be cast.

## Model

| member | source | states |
|---|---|---|
| Common.OrElse | controllers/deviceController.js:18-22 | `x \|\| fallback` on a string field: the value when it is non-empty, the fallback otherwise |
| Common.ToNumber | controllers/callController.js:54 | `Number(x)`: NaN exactly for undefined and non-numeric values; null and "" give 0 |
| Common.SlotOf | controllers/callController.js:54-61 | a slot is accepted exactly when `Number(x)` is 0 or 1, and it is that number |
| Common.TimeOr | controllers/smsController.js:42 | a truthy timestamp is used as given, a missing or zero one means now |
| Common.Lookup | controllers/statusController.js:16 | `findOne` on a collection keyed by the looked-up field: found exactly when the key is stored |
| Strings.Lower | controllers/deviceController.js:87 | lower-casing keeps the length and maps each character |
| Strings.Upper | controllers/deviceController.js:7 | upper-casing keeps the length and maps each character |
| Strings.LowerSlice | controllers/deviceController.js:87 | lower-casing commutes with slicing |
| Strings.LowerOfUpper | controllers/deviceController.js:87 | lower-casing an upper-cased string equals lower-casing the original |
| Strings.LowerIdempotent | controllers/simInfoController.js:100 | lower-casing twice is lower-casing once |
| Strings.Contains | controllers/deviceController.js:88-90 | `s.includes(t)` holds exactly when `t` occurs at some index of `s` |
| Strings.ContainsShift | controllers/deviceController.js:88 | when `t` is not a prefix of `s`, its occurrences in `s` are those in `s[1..]` shifted by one |
| Strings.LowerContains | controllers/deviceController.js:87-90 | `s.toLowerCase().includes(w)` holds exactly when some stretch of `s` reads as `w` ignoring case |
| Strings.ContainsIgnoringCase | controllers/deviceController.js:131-138 | the case-insensitive search holds exactly when a stretch of the field equals the lower-cased search text ignoring case |
| Strings.LowerCharKeepsSpace | controllers/simInfoController.js:100 | lower-casing neither creates nor removes white space |
| Strings.TrimStart | controllers/simInfoController.js:100 | the result is a suffix of the input, everything removed is white space, and it does not start with white space |
| Strings.TrimEnd | controllers/simInfoController.js:100 | the result is a prefix of the input, everything removed is white space, and it does not end with white space |
| Strings.Trim | controllers/simInfoController.js:100 | the result is a stretch of the input with only white space outside it and none at its ends |
| Strings.TrimOfTrimmed | controllers/simInfoController.js:100 | a string without white space at its ends is its own trim |
| Strings.TrimIdempotent | controllers/simInfoController.js:100 | trimming twice is trimming once |
| Strings.Normalize | controllers/simInfoController.js:100 | the normalised id is already lower case and no longer than the input |
| Strings.NormalizeIdempotent | controllers/simInfoController.js:100 | normalising a normalised id changes nothing |
| Ordering.Filter | controllers/deviceController.js:131-141 | the kept elements are exactly those satisfying the filter, each as often as in the input |
| Ordering.Insert | controllers/deviceController.js:140-141 | inserting into a newest-first sequence keeps it sorted and adds exactly that element |
| Ordering.InsertHead | controllers/deviceController.js:140-141 | an element no smaller than the head of a sorted sequence can go in front of it |
| Ordering.SortDesc | controllers/deviceController.js:140-141 | `sort({ createdAt: -1 })` is sorted newest first and a permutation of its input |
| Ordering.Reverse | controllers/deviceController.js:140 | reversal maps index `i` to `n-1-i` and keeps the elements |
| Ordering.ReverseSorted | controllers/deviceController.js:140 | reversing a newest-first sequence gives an oldest-first one |
| Ordering.SortAsc | controllers/deviceController.js:140-141 | `sort({ createdAt: 1 })` is sorted oldest first and a permutation of its input |
| Ordering.Take | controllers/callLogController.js:17 | `limit(n)` keeps the first `min(n, length)` elements |
| Ordering.Newest | controllers/callLogController.js:15-18 | filter, sort and limit give `min(limit, matches)` matching elements, newest first, drawn from the matches, and no match left out is newer than one returned |
| Ordering.PrefixIsTop | controllers/callLogController.js:16-17 | the first `n` of a newest-first sequence are sorted and no later element is newer than any of them |
| Devices.FindDevice | controllers/deviceController.js:28 | `findOne({ uniqueId })` finds the first device with that id, or none exactly when no device has it |
| Devices.GenerateDeviceId | controllers/deviceController.js:6-7 | a generated id is "DEV-" followed by the random digits in capitals |
| Devices.AssignedId | controllers/deviceController.js:46 | a new device gets the supplied id when given, otherwise a "DEV-" id; never an empty one |
| Devices.NewDevice | controllers/deviceController.js:47-57 | a new record takes each given field, "Unknown" for a missing model, manufacturer, Android version or brand, "Unavailable" for a missing operator, status ONLINE, connectivity "Online", battery 0, not charging |
| Devices.Refreshed | controllers/deviceController.js:28-33 | re-registration sets lastSeenAt, connectivity "Online" and status ONLINE and keeps every descriptive field as stored |
| Devices.Classify | controllers/deviceController.js:86-90 | the status is ONLINE, BUSY, IDLE or OFFLINE by the first of "online", "busy", "idle" the connectivity mentions ignoring case, each as an if-and-only-if |
| Devices.ClassifyIgnoresCase | controllers/deviceController.js:87 | upper- or lower-casing the connectivity does not change its status |
| Devices.OnlineWins | controllers/deviceController.js:88 | a connectivity mentioning "ONLINE" anywhere is ONLINE whatever else it says |
| Devices.MissingConnectivity | controllers/deviceController.js:86-95 | a report without connectivity gives status OFFLINE and stores "Unknown" |
| Devices.BuildStatusUpdate | controllers/deviceController.js:92-99 | the update sets lastSeenAt, connectivity or "Unknown", the classified status, the battery level only when it is a number, and the charging flag only when it is a boolean |
| Devices.ApplyStatus | controllers/deviceController.js:101-105 | fields the update sets change and every other field keeps its stored value |
| Devices.Selected | controllers/deviceController.js:131-138 | the `$or` search: no search text selects every device; otherwise brand, model, Android version or id must contain the text, ignoring case |
| Devices.SelectedIgnoresCase | controllers/deviceController.js:131-138 | searching for the capitalised text selects the same devices; no search or an empty one selects every device |
| Devices.ListDevices | controllers/deviceController.js:128-141 | the list holds exactly the selected devices, oldest first when sort is exactly "oldest" and newest first otherwise |
| Devices.DeviceStore.RegisterDevice | controllers/deviceController.js:12-65 | a stored id is refreshed in place and answered 200; otherwise one record is appended under the assigned id and answered 201; the broadcast carries the written record |
| Devices.DeviceStore.UpdateStatus | controllers/deviceController.js:77-114 | no device id gives 400 and an unknown one 404, both with nothing written or broadcast; a known id has the update applied to its first record only |
| Devices.DeviceStore.RecordCallStatusCode | controllers/callController.js:97-98 | the device's `callStatusCode` becomes the code and nothing else changes |
| Devices.DeviceStore.GetAllDevices | controllers/deviceController.js:126-144 | the device list, in the order the sort rule gives |
| Devices.DeviceStore.GetDeviceById | controllers/deviceController.js:158-172 | an empty id gives 400, an unknown one 404, a known one 200 with its first device, whose descriptive fields are never empty |
| Realtime.StatusRelay | server.js:60-72 | a `deviceStatus` message is rebroadcast with its id and connectivity unchanged exactly when it names a device |
| Realtime.OfflineNotice | server.js:78-86 | a disconnect broadcasts one "Offline" notice for the stored id exactly when an id is stored, and nothing otherwise |
| Realtime.AfterDisconnect | server.js:95 | after a disconnect no id is stored |
| Realtime.RepeatedDisconnect | server.js:78-95 | a second disconnect broadcasts nothing and changes nothing |
| Realtime.Step | server.js:46-97 | one event broadcasts at most once and only under a non-empty id; only a registration can set a new id; a disconnect leaves none |
| Realtime.Final | server.js:46-97 | after a run of events the stored id is the initial one, none, or one that a registration of the run sent |
| Realtime.Emitted | server.js:46-97 | a run broadcasts at most once per event, always under a non-empty id |
| Realtime.Relayed | server.js:60-72 | the number of status messages of a run that name a device |
| Realtime.EmittedSplits | server.js:46-97 | every broadcast of a run is a relayed status message or an "Offline" notice of a disconnect: their counts add up to the broadcasts |
| Realtime.OfflineNotices | server.js:75-97 | the number of disconnects of a run that find an id stored and so broadcast an "Offline" notice |
| Realtime.Registrations | server.js:53-57 | the number of registrations of a run that name a device |
| Realtime.NoticesBoundedByRegistrations | server.js:53-96 | over any run of events, at most one "Offline" notice is broadcast per registration naming a device, plus one for an id already stored |
| Realtime.UnregisteredIsSilent | server.js:46-97 | a connection that never registers, and whose status messages name no device, broadcasts nothing and never stores an id |
| Realtime.Connection.constructor | server.js:50 | a new connection stores no device id |
| Realtime.Connection.OnRegisterDevice | server.js:53-57 | the id is stored exactly as sent, replacing any earlier one |
| Realtime.Connection.OnDeviceStatus | server.js:60-72 | the broadcast log grows by the relayed message and the stored id is untouched |
| Realtime.Connection.OnDisconnect | server.js:75-97 | the broadcast log grows by the offline notice and the stored id is cleared |
| Realtime.Connection.Handle | server.js:46-97 | each event updates the stored id and the broadcast log as its handler does |
| LastSeenPresence.ParseConnectivity | controllers/lastSeen.controller.js:34-39 | only the exact strings "Online" and "Offline" are accepted, each as an if-and-only-if; anything else is 400 |
| LastSeenPresence.ActivityOf | controllers/lastSeen.controller.js:41-45 | Online maps to active and Offline to inactive |
| LastSeenPresence.Upsert | controllers/lastSeen.controller.js:43-58 | the upserted record has the mapped status and updatedAt now; lastSeenAt becomes now only on Offline; createdAt is set only on insert |
| LastSeenPresence.UpsertAll | controllers/lastSeen.controller.js:43-58 | after a non-empty run of reports the device has a record whose status and updatedAt are those of the last report; an empty run changes nothing |
| LastSeenPresence.LastOffline | controllers/lastSeen.controller.js:48-50 | the time of the last Offline report, present exactly when the run has one |
| LastSeenPresence.History | controllers/lastSeen.controller.js:43-58 | after a run of reports the status is that of the last one, lastSeenAt is the time of the last Offline report (or what it was before), and createdAt is that of the first insertion |
| LastSeenPresence.LastSeenStore.GetLastSeenByDeviceId | controllers/lastSeen.controller.js:4-17 | the stored record, or an inactive placeholder with no lastSeenAt that is not stored |
| LastSeenPresence.LastSeenStore.UpdateLastSeenStatus | controllers/lastSeen.controller.js:29-65 | a bad connectivity writes nothing; a good one upserts that device's record only, keeping one record per id |
| DeviceStatusReports.StatusStore.UpdateStatus | controllers/statusController.js:4-32 | a missing id or connectivity gives 400 with nothing written; otherwise the device's single record holds the connectivity verbatim and updatedAt now, and no other record changes |
| CallCodes.ParseCallType | models/CallCode.js:21 | only "ussd" and "number" are call types |
| CallCodes.Validate | controllers/callController.js:46-70 | an undefined code, type or slot gives 400, a slot that does not convert to 0 or 1 gives 400, an unknown device 404, then a null code or type, an empty code or a type outside the enum 500; each status and acceptance is an if-and-only-if |
| CallCodes.NullFieldsReachSchema | controllers/callController.js:46-70 | a null code or type is not refused by the handler: it gives 404 for an unknown device and the schema's 500 for a known one |
| CallCodes.Saved | controllers/callController.js:76-94 | the saved code is active with the submitted code and type for that device and slot; createdAt is kept on update and set on creation |
| CallCodes.LatestCode | controllers/callController.js:21-23 | the device's code of either slot created last, or none exactly when it has none |
| CallCodes.ReadFollowsCreation | controllers/callController.js:21-23 | re-saving an earlier-created slot leaves the other slot's code as the one a read returns |
| CallCodes.CallCodeStore.GetCallStatusCode | controllers/callController.js:7-28 | 404 exactly for an unknown device; a known one always 200, with its latest code when it has one and the placeholder with code "", type "", no slot and status inactive exactly when it has none |
| CallCodes.CallCodeStore.UpdateCallStatusCode | controllers/callController.js:40-111 | a refused request writes nothing; an accepted one writes exactly the code of that device and slot, leaves the other slot and devices untouched, and sets the device's `callStatusCode` |
| CallForwardLogs.ParseForwardStatus | controllers/callLogController.js:35 | only "enabled" and "disabled" are accepted |
| CallForwardLogs.StoredSlot | models/CallForwardLog.js:6 | the schema stores only a slot that is the number 0 or 1 |
| CallForwardLogs.NewEntry | controllers/callLogController.js:35-50 | a missing slot or bad status gives 400, an unknown device 404, a slot the schema rejects 500; an accepted entry carries the id, slot, status, actionBy or "user", and now |
| CallForwardLogs.History | controllers/callLogController.js:15-18 | at most 50 entries, all of that device, newest first, and no entry of that device left out is newer than one returned |
| CallForwardLogs.ShortHistoryIsComplete | controllers/callLogController.js:15-18 | a device with at most 50 entries gets all of them back |
| CallForwardLogs.SubMultisetOfSameSize | controllers/callLogController.js:17 | a sub-multiset as large as the whole is the whole |
| CallForwardLogs.CallLogStore.GetCallForwardLogs | controllers/callLogController.js:8-20 | 404 exactly for an unknown device; a known one always 200 with its history |
| CallForwardLogs.CallLogStore.LogCallForwardStatus | controllers/callLogController.js:30-62 | a refused request appends nothing; an accepted one appends exactly one entry after the earlier ones |
| SimInfo.MergeField | controllers/simInfoController.js:31 | a truthy submitted value replaces the stored one, a falsy one keeps it |
| SimInfo.Merge | controllers/simInfoController.js:31-36 | each of the six fields is merged on its own |
| SimInfo.BlankKeepsRecord | controllers/simInfoController.js:31-36 | a payload of falsy values (absent, null, 0, "", false) leaves the record unchanged |
| SimInfo.MergeIdempotent | controllers/simInfoController.js:29-38 | saving the same payload twice gives the record saving it once gives |
| SimInfo.MergeIntoCreated | controllers/simInfoController.js:47-55 | saving a payload again over the record it created changes nothing |
| SimInfo.MatchesId | controllers/simInfoController.js:100-105 | a stored id answers a lookup when it equals the trimmed, lower-cased id ignoring case |
| SimInfo.StoredIdIsFound | controllers/simInfoController.js:100-105 | a stored id without white space at its ends is found by itself |
| SimInfo.StoredIdIsFoundInCapitals | controllers/simInfoController.js:100-105 | such an id is also found by its upper-cased spelling |
| SimInfo.UpperKeepsEnds | controllers/simInfoController.js:100 | upper-casing adds no white space at the ends |
| SimInfo.SimInfoStore.SaveSimInfo | controllers/simInfoController.js:6-62 | no id gives 400 with nothing written; an exactly matching id has the payload merged into its record; otherwise one record holding the payload is created; no other record changes |
| SimInfo.SimInfoStore.GetSimByDeviceId | controllers/simInfoController.js:88-117 | an empty id gives 400; otherwise 404 exactly when no stored id equals the trimmed, lower-cased id ignoring case, and 200 with a record whose id does when one does |
| OutgoingSms.SentRecord | controllers/smsController.js:35-58 | no id, recipient or text gives 400; a NaN slot 500; otherwise the record holds exactly the id, recipient, text, numeric slot and timestamp or now |
| OutgoingSms.SmsStore.GetSmsByDeviceId | controllers/smsController.js:6-16 | always 200, with the device's record or null |
| OutgoingSms.SmsStore.SendSmsByDeviceId | controllers/smsController.js:30-64 | a refused send writes nothing; an accepted one replaces or creates that device's single record and no other |
| Notifications.ReceivedSlot | controllers/notificationController.js:27-37 | undefined, null or "" give slot 0; other values are accepted exactly when they convert to 0 or 1 |
| Notifications.Received | controllers/notificationController.js:19-48 | no id, receiving number or text gives 400; sender and sender number default to "Unavailable", the title to "New SMS"; acceptance is an if-and-only-if |
| Notifications.LimitedCount | controllers/notificationController.js:73-75 | `.limit(n)` returns all for 0 and `min(\|n\|, available)` otherwise |
| Notifications.GlobalLimitAsWritten | controllers/notificationController.js:70-71 | `Number(limit) \|\| 50` lowered to 200 when above it: never above 200 but possibly negative |
| Notifications.DeviceLimitAsWritten | controllers/notificationController.js:100 | `Math.min(Number(limit) \|\| 3, 50)`: never above 50 but possibly negative |
| Notifications.NegativeLimitPassesCap | controllers/notificationController.js:70-75 | with `limit=-1000` both listings return 1000 documents, above their caps |
| Notifications.GlobalLimit | controllers/notificationController.js:70-71 | the global limit is between 1 and 200, the number asked for when in range, 200 above it, 50 otherwise |
| Notifications.DeviceLimit | controllers/notificationController.js:100 | the per-device limit is between 1 and 50, the number asked for when in range, 50 above it, 3 otherwise |
| Notifications.LimitsAgreeExceptNegative | controllers/notificationController.js:70-100 | the corrected limits equal the written ones except on negative numbers and never let more than the cap through |
| Notifications.FilterEverything | controllers/notificationController.js:73 | an unfiltered `find()` keeps every notification |
| Notifications.NotificationStore.ReceiveNotification | controllers/notificationController.js:5-54 | a refused receipt writes nothing; an accepted one appends exactly one notification and answers 201 |
| Notifications.NotificationStore.GetAllNotifications | controllers/notificationController.js:67-81 | under the corrected limit: `min(limit, total)` notifications, newest first, none left out newer than one returned; for a limit that is not negative, as many as the written handler returns |
| Notifications.NotificationStore.GetNotificationsByDevice | controllers/notificationController.js:94-110 | under the corrected limit: that device's newest notifications, none of its others newer than one returned; for a limit that is not negative, as many as the written handler returns |
| AdminNumber.ParseSwitch | models/AdminNumber.js:5 | only "ON" and "OFF" are statuses |
| AdminNumber.CheckChange | controllers/adminController.js:35-44 | status "OFF" forces "Inactive" and is always accepted; otherwise a missing number or a status other than ON/OFF gives 400; acceptance is an if-and-only-if |
| AdminNumber.Applied | controllers/adminController.js:47-58 | the number is replaced; the status is the one sent, else the stored one, else OFF |
| AdminNumber.OffReadsAsDefault | controllers/adminController.js:35-58 | switching OFF always leaves the record equal to the default "Inactive"/OFF |
| AdminNumber.NumberOnlyKeepsSwitch | controllers/adminController.js:49-52 | setting a number without a status keeps the stored status |
| AdminNumber.AdminStore.GetAdminNumber | controllers/adminController.js:5-22 | the stored number and status, or "Inactive"/OFF when there is no record |
| AdminNumber.AdminStore.SetAdminNumber | controllers/adminController.js:30-67 | a refused change writes nothing; an accepted one leaves exactly one record, the applied change |
| Forms.EntryOf | controllers/formController.js:15-21 | an entry carries the four submitted fields and createdAt now |
| Forms.Submitted | controllers/formController.js:24-35 | a first submission creates a one-entry list, a later one appends at the end; no other device's list changes |
| Forms.SubmitAll | controllers/formController.js:24-35 | a run of submissions to one id adds at most that id and leaves every other device's list unchanged |
| Forms.SubmissionsAppendInOrder | controllers/formController.js:24-35 | after any run of submissions the device's list is its earlier list followed by the new entries in order |
| Forms.FormStore.SaveFormStep1 | controllers/formController.js:3-43 | a missing id answers success false with nothing written; otherwise the entry is appended to that device's single record |

## Left out

- HTTP and socket transport: Express routing, JSON bodies, `socket.join` rooms and delivery of broadcasts. Broadcasts are an appended log; replies are values.
- Persistence errors and concurrency: database failures (the 500 paths of the `catch` blocks other than schema rejections) are not modelled. Concurrent requests that interleave their find and save are not modelled either; handlers run one at a time.
- `sendCallCodeToDevice` in `logCallForwardStatus`: `server.js` does not define it, so the model replies as if the call had succeeded.
- `getAllSimInfo`: a plain unfiltered newest-first listing with nothing of its own to state.
- The authentication, bank-login, transaction-password and PAN controllers: they store submitted values verbatim behind a single id check, and the first calls bcrypt.
- Floating-point numbers: `Number(x)` is modelled only for integral results, so fractional slots and limits are not represented, and neither is a fractional battery level, which the status report stores whenever it is a number.
- Timestamps sent as strings, which `new Date(…)` parses, are not represented; `timestamp` is a millisecond count.
- Strings.Lower: case mapping covers ASCII letters only, not the full Unicode mapping of JavaScript.
- Strings.Upper: likewise ASCII letters only.
- Devices.Selected: the search is a regular expression in the source; the model reads it as literal text matched ignoring case, so patterns with special characters are not represented.
- SimInfo.SimInfoStore.GetSimByDeviceId: the `^id$` pattern is read as whole-string equality ignoring case; special characters in the id are not represented, and which of several matching records `findOne` returns is left unspecified.
- CallCodes.LatestCode: when both slots were created at the same instant the database order is unspecified; the model returns slot 0.
- Ordering.SortDesc: ties in `createdAt` are ordered by the model's insertion sort; the contracts do not depend on the order among ties.
- Notifications.NotificationStore.GetAllNotifications: uses the corrected limit, so a negative `limit` returns 50 notifications (or fewer) where the written handler returns `min(|limit|, total)`; on every other limit the two agree.
- Notifications.NotificationStore.GetNotificationsByDevice: uses the corrected limit, so a negative `limit` returns 3 notifications (or fewer) where the written handler returns `min(|limit|, count)`; on every other limit the two agree.
- Schema mismatches, where the model follows the controllers:
  - The device schema has no `callStatusCode` path, so a strict schema would drop that write.
  - The SIM info and notification schemas require a `deviceId` that the controllers never write, and they declare none of the other paths the controllers write (`uniqueid` and the numbers, carriers and slots of both SIMs; `sender`, `body`, the numbers and the slot), so a strict schema would drop those values.
  - The device schema keeps `updatedAt` through its timestamps; the model's device record has no `updatedAt`, so the time of the last registration or status write is not represented.
  - The admin schema types `number` as a Number, while the controller stores "Inactive".
- The form collection's schema (models/formModel.js) is not part of this model; entries are stored as submitted.
- The status collection's schema (models/StatusModel.js) is not part of this model. Its records are taken to hold the id, the connectivity and `updatedAt`.
- Request fields are taken as strings or absent, except where the handler inspects the type (battery level, charging flag, connectivity of a last-seen update, SIM fields, slots). A number or object sent where a string is expected is not represented.

## Findings

| source | as written | input that shows it | evidently intended | confidence | as-written member | corrected member |
|---|---|---|---|---|---|---|
| controllers/notificationController.js:70-71 | `Number(limit) \|\| 50` keeps a negative number, and `limit > 200` does not lower it; MongoDB reads a negative limit as its absolute value | `GET /api/notification/all?limit=-1000` returns up to 1000 notifications | at most 200 notifications, 50 when no positive limit is given | not executed | Notifications.GlobalLimitAsWritten | Notifications.GlobalLimit |
| controllers/notificationController.js:100 | `Math.min(Number(limit) \|\| 3, 50)` keeps a negative number, which MongoDB reads as its absolute value | `?limit=-1000` on the per-device listing returns up to 1000 notifications of that device | at most 50 notifications, 3 when no positive limit is given | not executed | Notifications.DeviceLimitAsWritten | Notifications.DeviceLimit |

`Notifications.NegativeLimitPassesCap` exhibits both inputs. `Notifications.LimitsAgreeExceptNegative` proves that the corrected limits differ from the written ones only on negative numbers and never exceed their caps. The listings use the corrected limits, and prove that they return as many notifications as the written handlers for every limit that is not negative.
