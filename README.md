# Boat-fleet operator console — verified model of its core

This project models, in Dafny, the logic at the heart of a React console for a fleet of autonomous sailing boats. It covers:

- **Fleet telemetry store** (`BoatStore`). Each inbound `boat_data` delta is upserted into the ordered list of boat records. The record is found by `boat_id`, its `data` is shallow-merged, and `time_now` is stamped. An unknown boat is appended.
- **Recording sessions and export** (`Recording`, `Csv`):
  - fleet-wide and per-boat recordings that buffer inbound events;
  - export on stop, skipped when the buffer is empty;
  - the file-name rule;
  - the CSV serialiser, with its flattening of `magnetic_field`.
- **Connection** (`SocketSession`, `HeaderBar`):
  - the socket provider, which holds at most one live socket, together with its `connect`/`disconnect` and transport callbacks;
  - the header's connect button, server picker and default-server selection.
- **Control views** (`Commands`, `MapAutonomous`, `MapManual`, `WindowAutonomous`, `WindowManual`):
  - the `gui_data` commands each view builds, and the guards under which it emits them;
  - default boat selection;
  - joystick release;
  - the 50-point per-boat trails, statuses and "reached" notifications;
  - per-boat trail colours;
  - target pasting;
  - map recentring.
- **Sidebar** (`Sidebar`): how a status becomes a style class and a text, and how the command mode is capitalised.

How JavaScript is represented:

- JavaScript values are a datatype (`JsValues.Value`). An object is an ordered list of properties.
- Spread, property assignment and `delete` are functions on such lists.
- Truthiness and `===` follow the language.
- A number is carried as its display text.

How the console's behaviour is represented:

- Each React handler or effect is one atomic method. Its setters apply in order, and the last one wins.
- The fields a component keeps in state are fields of a class.
- Emitted messages are appended to a `sent` log. Downloads are appended to a `downloads` log.
- Clocks, random draws and clipboard outcomes are parameters.

Where the code and the design description disagree, the model follows the code:

- Starting a recording that is already running restarts it and discards its buffer. It is not a no-op.
- Disconnecting does not clear the fleet store.
- The store has no bulk-replace operation. Records are only ever added or updated.
- The manual views do not retransmit periodically. A command is sent once each time a set-point, the selection or the connection changes.
- Releasing a joystick sends a zeroed command only if a set-point actually changed. `MapManual.ManualControl.ReleaseJoystick` states both cases.
- Malformed telemetry is not discarded. A `null` or `undefined` `boat_data` payload makes the store's updater throw, and the console crashes. Any other payload that is not an object is stored as a record whose id is `undefined` (`BoatStore.BoatProvider.HandleBoatData`, `BoatStore.NonObjectPayloadStoredUnderUndefined`).
- A `null` or `undefined` event given to `addRecordedData` throws at its caller (`Recording.RecordingProvider.AddRecordedData`).
- A boat id that is an object reaches the store unchanged and makes the sidebar's render throw (`Sidebar.ObjectIdBreaksList`).
- Per-boat lookups index plain objects, so an id naming an inherited `Object.prototype` member (`constructor`, `toString`, `__proto__`, and the others in `JsValues.ObjectPrototypeNames`) reads that member. The recording of such a boat crashes the console, the trail effect crashes on it, and its colour is that member instead of a colour. A CSV column with such a name, missing from a later entry, gets that member's text as its cell (`Csv.ColumnsFromFirstEntry`).

The store keeps records of the form `{boat_id, data}`, while the views read `lat`, `lng`, `status`, `location` and `notification` at the top level of a record. The model states the consequence:

- Records built by the store keep exactly those two keys (`BoatStore.MergeKeepsShape`).
- On such records every top-level field the views read is `undefined` (`BoatStore.ShapedRecordLacksTopLevelFields`).
- As a result:
  - trails and statuses never change;
  - no notification is raised;
  - the sidebar shows every boat as station-keeping;
  - choosing a boat in the window view centres the map on the fallback position.

The lemmas `MapAutonomous.ShapedStoreLeavesTrails`, `MapAutonomous.ShapedStoreNoNotice`, `Sidebar.ShapedStoreAllStationKeeping` and `WindowManual.ShapedStoreCentersOnFallback` state these consequences. All other properties are proved for arbitrary records, as the views would see them if the relay sent those fields.

## Model

| member | source | states |
|---|---|---|
| BoatStore.FindBoatIndex | src/contexts/BoatContext.js:17-19 | the index of the first record whose `boat_id` is strictly equal to the id; the list length when none is |
| BoatStore.FindBoat | src/Window/autonomousControl.js:48-51 | `find` by id: none exactly when no record's id is strictly equal; otherwise the first record that is |
| BoatStore.BoatProvider.constructor | src/contexts/BoatContext.js:9 | the store starts empty |
| BoatStore.BoatProvider.HandleBoatData | src/contexts/BoatContext.js:12-49 | a `null` or `undefined` payload makes `data.boat_id` throw in the updater: the console crashes and the list stays; any other payload is merged (read through its own properties only) and the list stays well formed, with unique ids and the two-key shape |
| BoatStore.NonObjectPayloadStoredUnderUndefined | src/contexts/BoatContext.js:17-43 | a number, text or array payload is stored under the id `undefined`: the record with that id is restamped, or `{boat_id: undefined, data: {time_now}}` is appended |
| BoatStore.UpdatedRecord | src/contexts/BoatContext.js:24-31 | the updated record keeps every top-level field other than `data`, keeps its key order, and holds the merged `data` |
| BoatStore.MergedDataReads | src/contexts/BoatContext.js:26-30 | merged `data`: `time_now` is the store's stamp, a key in the delta takes the delta's value, any other key keeps the old value; a key is present iff it is `time_now`, in the delta or in the old data |
| BoatStore.MergeBoatData | src/contexts/BoatContext.js:16-46 | the `setBoats` updater: only the record the id finds may change, every other record stays as it was, and the list grows by exactly one record when no record has a strictly equal id |
| BoatStore.MergeUpdatesKnownBoat | src/contexts/BoatContext.js:17-32 | a known id: same length, every other record unchanged, the record keeps its id and every top-level field but `data` |
| BoatStore.MergeAppendsUnknownBoat | src/contexts/BoatContext.js:33-44 | an unknown id: the old list followed by exactly one `{boat_id, data}` record whose data is the delta stamped with `time_now` |
| BoatStore.MergeLastWriteWins | src/contexts/BoatContext.js:14-44 | in the record the delta lands in, found or new, each key reads as the delta's value, else the old value, and `time_now` always holds the store's own stamp, overriding any in the payload |
| BoatStore.MergeKeepsWellFormed | src/contexts/BoatContext.js:12-49 | records with unique keys and object-spreadable data stay so after a merge |
| BoatStore.MergeKeepsIdsUnique | src/contexts/BoatContext.js:17-44 | unique ids before the merge stay unique after it |
| BoatStore.MergeKeepsShape | src/contexts/BoatContext.js:33-44 | records of the form `{boat_id, data}` keep that form; top-level payload fields other than `boat_id` and `data` never reach the store |
| BoatStore.ShapedRecordLacksTopLevelFields | src/contexts/BoatContext.js:36-43 | on such records every other top-level field reads `undefined` |
| BoatStore.MergedDataIs | src/contexts/BoatContext.js:26-30 | the merged data is the old data assigned the delta, then stamped |
| BoatStore.RemergeKeys | src/contexts/BoatContext.js:26-30 | merging the same delta again leaves the key order as after the first merge |
| BoatStore.RemergeSameDelta | src/contexts/BoatContext.js:26-30 | merging the same delta twice equals merging once at the later time |
| BoatStore.SetTwice | src/contexts/BoatContext.js:29 | setting a key twice equals setting it once to the later value |
| BoatStore.RecordRemerge | src/contexts/BoatContext.js:24-31 | updating a record twice with the same delta equals updating once at the later time |
| BoatStore.MergeIdempotentKnown | src/contexts/BoatContext.js:21-32 | idempotence for a boat the store knows |
| BoatStore.AppendedRecordRemerge | src/contexts/BoatContext.js:33-44 | a record just appended, updated with the same delta, equals the record appended at the later time |
| BoatStore.MergeIntoLast | src/contexts/BoatContext.js:17-32 | a delta for the record just appended updates that last record only |
| BoatStore.RemergeAppended | src/contexts/BoatContext.js:33-44 | delivering a new boat's delta twice leaves one record, as if delivered once at the later time |
| BoatStore.MergeIdempotentUnknown | src/contexts/BoatContext.js:33-44 | idempotence for a boat the store did not know |
| BoatStore.MergeIdempotent | src/contexts/BoatContext.js:12-49 | applying the same delta twice gives the list applying it once gives, apart from `time_now`, when the id is strictly equal to itself |
| BoatStore.FindBoatIndexAt | src/contexts/BoatContext.js:17-19 | the first strictly equal index is the one `findIndex` returns |
| Recording.Sanitize | src/contexts/RecordingContext.js:65 | the timestamp keeps its length; every ':' and '.' becomes '-', every other character stays |
| Recording.SanitizeClean | src/contexts/RecordingContext.js:65 | no ':' or '.' remains, and sanitising again changes nothing |
| Recording.FileNamesHaveOneDot | src/contexts/RecordingContext.js:73-100 | the first '.' of a file name is the one before `json`, and no ':' appears, when the boat id has neither |
| Recording.ExtensionDot | src/contexts/RecordingContext.js:100 | a dot-free body followed by `.json` has its first '.' right after the body |
| Recording.RecordingProvider.constructor | src/contexts/RecordingContext.js:8-11 | nothing recorded, no flags, empty buffers |
| Recording.RecordingProvider.StartRecordingAll | src/contexts/RecordingContext.js:13-16 | the fleet flag is set and the fleet buffer emptied, even if it was running; nothing else changes |
| Recording.RecordingProvider.SaveDataToFileAll | src/contexts/RecordingContext.js:61-85 | one download named `boat_data_all_<ts>.json` holding the fleet buffer, none when it is empty |
| Recording.RecordingProvider.StopRecordingAll | src/contexts/RecordingContext.js:18-22 | the flag clears, the old buffer is saved, the buffer empties |
| Recording.RecordingProvider.StartRecordingBoat | src/contexts/RecordingContext.js:24-33 | only that boat's flag becomes true and only its buffer becomes empty |
| Recording.RecordingProvider.SaveDataToFileBoat | src/contexts/RecordingContext.js:87-112 | one download named `boat_data_<id>_<ts>.json` holding the boat's buffer, none when it is missing or empty |
| Recording.RecordingProvider.StopRecordingBoat | src/contexts/RecordingContext.js:35-46 | the boat's flag becomes false (its key stays), its buffer is saved and then only its buffer entry is deleted |
| Recording.RecordingProvider.AddRecordedData | src/contexts/RecordingContext.js:48-59 | a `null` or `undefined` event throws at its caller and changes nothing; any other event is appended to the fleet buffer iff the fleet is recorded and to its boat's buffer iff that boat's own flag is true; when the flag reads an inherited `Object.prototype` member the boat's updater throws and the console crashes; flags and other buffers untouched |
| Recording.SavedAll | src/contexts/RecordingContext.js:61-85 | at most one download, present exactly when the buffer is non-empty, with the buffer and the fleet file name |
| Recording.SavedBoat | src/contexts/RecordingContext.js:87-112 | at most one download, present exactly when the boat's buffer exists and is non-empty |
| Recording.StopAllTwice | src/contexts/RecordingContext.js:18-22 | a second fleet stop after a stop downloads nothing |
| Recording.StopBoatTwice | src/contexts/RecordingContext.js:35-46 | a second stop of a boat after a stop downloads nothing |
| Recording.RecordBoatSession | src/contexts/RecordingContext.js:24-59 | start, feed events, stop: the console crashes exactly when another boat's event carries an id naming an inherited member, and then nothing is downloaded, since the unmounted console has no Stop button; otherwise the single download holds exactly that boat's non-null events in arrival order, or nothing when there were none |
| Recording.FeedEvents | src/contexts/RecordingContext.js:48-59 | feeding events in order to a single-boat recording leaves its buffer equal to that boat's events and the crash flag equal to whether any fed event crashes it |
| Recording.FeedOne | src/contexts/RecordingContext.js:48-59 | one more event extends the buffer and the crash flag as `Matching` and `AnyCrashesSession` say |
| Recording.AnyCrashesSessionIff | src/contexts/RecordingContext.js:53-56 | the prefix fold of crashes is true iff some fed event crashes the session |
| Recording.Matching | src/contexts/RecordingContext.js:48-59 | the events kept for a boat are events fed, none null or undefined, and are that boat's |
| Recording.MatchingAppend | src/contexts/RecordingContext.js:48-59 | feeding one more event extends a boat's events iff it is that boat's and is not null or undefined |
| Csv.Flatten | src/contexts/RecordingContext.js:117-126 | a flattened entry never keeps a truthy `magnetic_field` column: a truthy one is expanded and deleted |
| Csv.Cells | src/contexts/RecordingContext.js:130-131 | one cell per column, in column order, each the text `join` writes for `entry[key]` |
| Csv.Lines | src/contexts/RecordingContext.js:128-134 | one header line from the first entry's keys, then one line per entry in order, every line under those same columns |
| Csv.ConvertToCsv | src/contexts/RecordingContext.js:114-135 | the CSV is empty exactly when there is no entry |
| Csv.BaseReads | src/contexts/RecordingContext.js:118 | the spread literal puts `boat_id` first and lets the data's own `boat_id` override it |
| Csv.SetKeepsFirst | src/contexts/RecordingContext.js:120-122 | adding a property keeps the first property first |
| Csv.FlattenStartsWithBoatId | src/contexts/RecordingContext.js:117-126 | every flattened entry starts with the column `boat_id`, so the header is never empty |
| Csv.FlattenReads | src/contexts/RecordingContext.js:117-126 | a truthy `magnetic_field` is replaced by `_x`, `_y`, `_z` columns holding its members; every other column reads as in the entry |
| Csv.JoinNonEmpty | src/contexts/RecordingContext.js:134 | joining lines whose first is non-empty gives a non-empty text |
| Csv.JoinAvoids | src/contexts/RecordingContext.js:131 | a character absent from every cell and distinct from the separator is absent from the joined line |
| Csv.LinesUnbroken | src/contexts/RecordingContext.js:129-132 | with no line break in names or cells, no line holds one |
| Csv.CsvReadsBack | src/contexts/RecordingContext.js:114-135 | with no comma or line break in names or cells, the CSV splits back into the header keys and each entry's cells, one line per entry |
| Csv.ColumnsFromFirstEntry | src/contexts/RecordingContext.js:128-131 | columns come from the first entry only; a later entry lacking a column gets an empty cell, unless the column is named after an inherited `Object.prototype` member, whose text `entry[key]` reads and `join` writes instead |
| SocketSession.Socket.constructor | src/Context/socketContext.js:21-25 | a new socket starts connecting |
| SocketSession.SocketProvider.constructor | src/Context/socketContext.js:10-13 | no socket, not connected, no server, mode "manual" |
| SocketSession.SocketProvider.CloseHeld | src/Context/socketContext.js:16-18 | the held socket is closed and the flag cleared |
| SocketSession.SocketProvider.Connect | src/Context/socketContext.js:15-46 | the old socket is closed first; a fresh connecting socket for the URL is held and the URL selected at once; the flag is false until the socket's `connect` event; a throwing factory leaves the closed old socket and the selection |
| SocketSession.SocketProvider.Disconnect | src/Context/socketContext.js:48-56 | with a socket: it is closed, dropped, the flag and selection cleared; with none: nothing changes |
| SocketSession.SocketProvider.SetSelectedServer | src/Context/socketContext.js:76 | the selection is the value |
| SocketSession.SocketProvider.SetCommandMode | src/Context/socketContext.js:78 | the mode is the value |
| SocketSession.SocketProvider.OnConnect | src/Context/socketContext.js:27-32 | only the held, connecting socket can fire it; the flag is set and its URL selected |
| SocketSession.SocketProvider.OnDisconnect | src/Context/socketContext.js:34-37 | the flag clears; socket and selection stay; the socket is closed for good |
| SocketSession.SocketProvider.OnConnectError | src/Context/socketContext.js:39-42 | the flag clears; socket and selection stay; the socket gives up |
| SocketSession.SocketProvider.OnlyHeldSocketIsLive | src/Context/socketContext.js:15-46 | every socket opened that is not closed is the one held |
| HeaderBar.Header.constructor | src/components/Header/Header.js:20-21 | no servers, banner hidden |
| HeaderBar.Header.OnServersLoaded | src/components/Header/Header.js:23-33 | the list is kept; the first entry's value is selected when none is and the list is non-empty; an existing selection stays |
| HeaderBar.Header.HandleConnection | src/components/Header/Header.js:35-54 | connected: disconnect and hide the banner; otherwise connect to the selected server, never both; a throwing connect shows the banner |
| HeaderBar.Header.HandleServerChangeAsWritten | src/components/Header/Header.js:56-60 | the choice is stored, then the disconnect blanks it whenever a socket was held |
| HeaderBar.Header.HandleServerChange | src/components/Header/Header.js:56-60 | corrected order: the socket is dropped, and the choice stays selected |
| HeaderBar.SwitchServerAsWritten | src/components/Header/Header.js:23-60 | connected to the first server and picking another, the selection ends on the first listed server |
| HeaderBar.SwitchServer | src/components/Header/Header.js:23-60 | with the corrected handler the picked server stays selected |
| HeaderBar.SwitchToSecondServer | src/components/Header/Header.js:56-60 | two listed servers, the second picked while connected: the two handlers end on different servers |
| Commands.Or | src/Window/manualControl.js:101-102 | `a \|\| b` is one of its operands, truthy exactly when either operand is, and short-circuits to `a` when `a` is truthy |
| Commands.DriveCommand | src/components/Map/ManualControl.js:36-43 | a `gui_data` event whose payload has exactly the keys `boat_id`, `r`, `th`, `command_mode`, in that order |
| Commands.RouteCommand | src/components/Map/AutonomousControl.js:182-188 | a `gui_data` event whose payload has exactly the keys `id`, `md`, `tlat`, `tlng`, in that order |
| Commands.ActuateCommand | src/Window/manualControl.js:42-52 | a `gui_data` event whose payload has exactly the keys `boat_id`, `r`, `s`, `th`, `command_mode`, `target_gps_latitude`, `target_gps_longitude`, in that order |
| Commands.GoalCommand | src/Window/autonomousControl.js:70-76 | a `gui_data` event whose payload has exactly the keys `boat_name`, `command_mode`, `target_gps_latitude`, `target_gps_longitude`, in that order |
| Commands.ReadsEveryField | src/components/Map/ManualControl.js:36-41 | each property of an object with unique keys reads back |
| Commands.DriveCommandReadsBack | src/components/Map/ManualControl.js:36-43 | the drive command carries `boat_id`, `r`, `th` and mode "manual", no route key |
| Commands.RouteCommandReadsBack | src/components/Map/AutonomousControl.js:182-188 | the route command carries `id`, `md: "auto"`, `tlat`, `tlng`, no command mode |
| Commands.ActuateCommandReadsBack | src/Window/manualControl.js:42-52 | the actuator command carries `boat_id`, `r`, `s`, `th`, mode "manual" and zero GPS targets |
| Commands.GoalCommandReadsBack | src/Window/autonomousControl.js:70-76 | the goal command carries `boat_name`, mode "autonomous" and the target |
| MapAutonomous.HexPadRoundTrip | src/components/Map/AutonomousControl.js:43 | the padded hexadecimal numeral has the pad width and reads back as the number |
| MapAutonomous.HexPadDigits | src/components/Map/AutonomousControl.js:43 | the numeral has only lower-case hex digits |
| MapAutonomous.HexColorReadsBack | src/components/Map/AutonomousControl.js:43 | a drawn colour is '#' and six hex digits that read back as the draw |
| MapAutonomous.BoatColors.constructor | src/components/Map/AutonomousControl.js:39 | the memo starts empty |
| MapAutonomous.BoatColors.GetBoatColor | src/components/Map/AutonomousControl.js:40-46 | a boat with a colour keeps it and nothing changes; a boat whose key names an inherited `Object.prototype` member gets that member, no colour, and nothing is drawn or stored; any other boat gets the drawn colour, remembered |
| MapAutonomous.ColorIsStable | src/components/Map/AutonomousControl.js:40-46 | asking twice for a boat gives the same answer whatever the second draw: a remembered colour, or no colour at all for an inherited name |
| MapAutonomous.Push | src/components/Map/AutonomousControl.js:99-102 | after push-then-shift the newest point is the one pushed, and a trail within 50 points stays within 50 |
| MapAutonomous.Recent | src/components/Map/AutonomousControl.js:100-102 | the kept tail of a history has at most 50 points |
| MapAutonomous.PushKeepsRecent | src/components/Map/AutonomousControl.js:99-102 | pushing onto the last 50 points of a history and shifting on overflow gives the last 50 points of the longer history |
| MapAutonomous.TrailIsRecentHistory | src/components/Map/AutonomousControl.js:94-102 | in the trails a completed run of the effect produces (`UpdateTrails` says when it completes), each boat's trail is the last 50 of its old trail followed by the numeric positions reported since, oldest first; boats without a numeric position add nothing |
| MapAutonomous.VisitBoat | src/components/Map/AutonomousControl.js:94-108 | one `forEach` step throws exactly for a boat with a numeric position whose key names an inherited member; otherwise it is the fold's step, and the trails still own no inherited name |
| MapAutonomous.RunTrailEffect | src/components/Map/AutonomousControl.js:91-108 | the `forEach` over the fleet throws exactly when some boat's push throws; when it completes, trails and statuses are the fold of the step over the fleet in order, and the trails own no inherited name |
| MapAutonomous.ThrowIsFinal | src/components/Map/AutonomousControl.js:94-108 | once a push has thrown, the effect throws whatever boats follow |
| MapAutonomous.TrailsKeepOwnNames | src/components/Map/AutonomousControl.js:96-98 | while no positioned boat before has an inherited name, the trails never gain a key that `Object.prototype` supplies |
| MapAutonomous.TrailsStayBounded | src/components/Map/AutonomousControl.js:100-102 | no trail ever exceeds 50 points |
| MapAutonomous.StatusRetained | src/components/Map/AutonomousControl.js:104-106 | a status entry changes only to a truthy status reported with a position; otherwise it stays, and stored statuses are truthy |
| MapAutonomous.ShapedStoreLeavesTrails | src/components/Map/AutonomousControl.js:94-107 | records of the store never extend a trail or change a status |
| MapAutonomous.LastReached | src/components/Map/AutonomousControl.js:114-128 | a notice found says that its boat "has reached its destination."; which boat it is, is stated by `LastReachedNone` and `LastReachedIsLast` |
| MapAutonomous.LastReachedNone | src/components/Map/AutonomousControl.js:114-128 | no notice exactly when no boat's notification has an id and type "reached" |
| MapAutonomous.LastReachedIsLast | src/components/Map/AutonomousControl.js:114-128 | the notice is `{id, boat_id, message}` of the last such boat in list order |
| MapAutonomous.ShapedStoreNoNotice | src/components/Map/AutonomousControl.js:116-119 | records of the store never raise a notice |
| MapAutonomous.WithFieldReads | src/components/Map/AutonomousControl.js:293-325 | typing one target field sets it and keeps the target's other fields |
| MapAutonomous.PastedTargetReads | src/components/Map/AutonomousControl.js:197-208 | pasting sets the target's `lat` and `lng` and keeps its other fields |
| MapAutonomous.AutonomousControl.constructor | src/components/Map/AutonomousControl.js:52-60 | no target, boat "Boat1", nothing selected or copied, the default centre, no targets, trails, statuses or notice |
| MapAutonomous.AutonomousControl.Mount | src/components/Map/AutonomousControl.js:62-66 | the command mode becomes "autonomous" |
| MapAutonomous.AutonomousControl.FollowTarget | src/components/Map/AutonomousControl.js:68-82 | the boat is the first matching record or `undefined`; the map recentres only on a found record with a numeric position |
| MapAutonomous.AutonomousControl.DefaultTarget | src/components/Map/AutonomousControl.js:84-88 | with no target and a non-empty fleet the first boat's id; an existing target is kept |
| MapAutonomous.AutonomousControl.UpdateTrails | src/components/Map/AutonomousControl.js:90-112 | when some boat with a numeric position has a key naming an inherited member, `.push` throws: the console crashes and neither trails nor statuses change; otherwise trails and statuses become the fold of the effect's step over the fleet, in order, and stay bounded |
| MapAutonomous.AutonomousControl.UpdateNotification | src/components/Map/AutonomousControl.js:114-128 | the notice of the last reached boat, or the old notification when none has reached |
| MapAutonomous.AutonomousControl.NotificationExpires | src/components/Map/AutonomousControl.js:130-138 | the timer clears the notice |
| MapAutonomous.AutonomousControl.HandleBoatChange | src/components/Map/AutonomousControl.js:140-142 | the target is the picked option's text |
| MapAutonomous.AutonomousControl.HandleMapClick | src/components/Map/AutonomousControl.js:144-148 | the clicked position is selected |
| MapAutonomous.AutonomousControl.CopySelectedPosition | src/components/Map/AutonomousControl.js:150-178 | the selected position is copied once the clipboard accepted it |
| MapAutonomous.AutonomousControl.SendRouteToCurrentBoat | src/components/Map/AutonomousControl.js:180-195 | exactly one route command iff socket, connection, target and position are all present; otherwise nothing |
| MapAutonomous.AutonomousControl.PasteCopiedPosition | src/components/Map/AutonomousControl.js:197-208 | nothing without a copy; otherwise only that boat's target changes, to its old fields with the copied `lat`/`lng` |
| MapAutonomous.AutonomousControl.HandleBoatMarkerClick | src/components/Map/AutonomousControl.js:217-219 | the target is the clicked boat's id |
| MapAutonomous.AutonomousControl.SetTargetField | src/components/Map/AutonomousControl.js:293-325 | only that boat's target changes, in that one field |
| MapManual.ManualControl.constructor | src/components/Map/ManualControl.js:14-16 | no boat, rudder 0, throttle 0, nothing sent |
| MapManual.ManualControl.DefaultBoat | src/components/Map/ManualControl.js:19-24 | with no boat and a non-empty fleet the first boat's id; an existing selection is kept |
| MapManual.ManualControl.Mount | src/components/Map/ManualControl.js:26-31 | the command mode becomes "manual" |
| MapManual.ManualControl.SendData | src/components/Map/ManualControl.js:33-57 | one drive command with the current boat and set-points iff connected with a socket; otherwise nothing |
| MapManual.ManualControl.SendEffect | src/components/Map/ManualControl.js:59-61 | a command is sent after a render exactly when a dependency of the sender changed and the guard holds |
| MapManual.ManualControl.HandleJoystickMove | src/components/Map/ManualControl.js:63-68 | rudder and throttle are set together from the same move |
| MapManual.ManualControl.HandleJoystickStop | src/components/Map/ManualControl.js:70-73 | both set-points become 0 |
| MapManual.ManualControl.HandleBoatSelect | src/components/Map/ManualControl.js:75-77 | the record's own id is selected; the source defines this handler but never wires it into the render, so no user action reaches it |
| MapManual.ManualControl.HandleSelectChange | src/components/Map/ManualControl.js:88-90 | the picked option's text is selected |
| MapManual.ManualControl.ReleaseJoystick | src/components/Map/ManualControl.js:59-73 | releasing a driven joystick while connected sends exactly one zero command for the boat; releasing an idle one sends nothing |
| WindowAutonomous.AutonomousControl.constructor | src/Window/autonomousControl.js:36-38 | no target, boat `null`, no position |
| WindowAutonomous.AutonomousControl.Mount | src/Window/autonomousControl.js:41-45 | the command mode becomes "autonomous" |
| WindowAutonomous.AutonomousControl.LookupBoat | src/Window/autonomousControl.js:48-51 | the first record whose id is strictly equal to the target, or `undefined` |
| WindowAutonomous.AutonomousControl.DefaultTarget | src/Window/autonomousControl.js:54-58 | with no target and a non-empty fleet the first boat's id |
| WindowAutonomous.AutonomousControl.HandleBoatChange | src/Window/autonomousControl.js:60-62 | the target is the picked option's text |
| WindowAutonomous.AutonomousControl.HandleMapClick | src/Window/autonomousControl.js:64-66 | the clicked position is selected unchanged |
| WindowAutonomous.AutonomousControl.SendTargetCoordinates | src/Window/autonomousControl.js:68-81 | one goal command iff socket, connection and position are present, whether or not a target is chosen |
| WindowAutonomous.PickedNumericIdNotFound | src/Window/autonomousControl.js:48-62 | with numeric ids, a boat picked from the list (text) is never found, though its own id is |
| WindowManual.CenterFor | src/Window/manualControl.js:97-105 | the centre is always two truthy coordinates, each the boat's own or the fallback |
| WindowManual.CenterOnFoundBoat | src/Window/manualControl.js:97-105 | a found boat with a truthy location and coordinates centres the map on them |
| WindowManual.ShapedStoreCentersOnFallback | src/Window/manualControl.js:97-105 | records of the store always give the fallback 37.8682 / -122.3177 |
| WindowManual.ManualControl.constructor | src/Window/manualControl.js:23-31 | boat "all", rudder, sail and throttle 0, centre 37.86706 / -122.36341 |
| WindowManual.ManualControl.Mount | src/Window/manualControl.js:34-38 | the command mode becomes "manual" |
| WindowManual.ManualControl.SendData | src/Window/manualControl.js:40-65 | one actuator command iff connected with a socket; otherwise nothing |
| WindowManual.ManualControl.SendEffect | src/Window/manualControl.js:67-69 | every change of rudder, sail, throttle, selection or connection sends once, with no rate limit |
| WindowManual.ManualControl.HandleRudderMove | src/Window/manualControl.js:71-74 | the rudder is set |
| WindowManual.ManualControl.HandleThrottleMove | src/Window/manualControl.js:76-79 | the throttle is set |
| WindowManual.ManualControl.HandleRudderStop | src/Window/manualControl.js:81-83 | only the rudder becomes 0 |
| WindowManual.ManualControl.HandleThrottleStop | src/Window/manualControl.js:85-87 | only the throttle becomes 0 |
| WindowManual.ManualControl.HandleSailAngleChange | src/Window/manualControl.js:89-91 | the sail is set |
| WindowManual.ManualControl.HandleBoatChange | src/Window/manualControl.js:93-106 | the picked boat is selected and the map recentres on it or the fallback |
| Sidebar.StatusClass | src/components/Sidebar/Sidebar.js:34-41 | "reached" iff the status is "Reached Destination"; "in-progress" iff it is text starting "In Progress"; a throw iff it is truthy and not text; otherwise "station-keeping" |
| Sidebar.StatusText | src/components/Sidebar/Sidebar.js:42 | the status itself when truthy, else "station-keeping"; never falsy |
| Sidebar.ClassAgreesWithText | src/components/Sidebar/Sidebar.js:34-42 | class and text agree: reached shows "Reached Destination", in-progress shows its own status, a missing status is station-keeping in both |
| Sidebar.ModeClass | src/components/Sidebar/Sidebar.js:18-20 | the class is "manual" exactly for the mode "manual", and "autonomous" for every other mode |
| Sidebar.ModeLabel | src/components/Sidebar/Sidebar.js:22 | the label has the mode's length, its first character upper-cased and every later character unchanged |
| Sidebar.ModeLabelsOfKnownModes | src/components/Sidebar/Sidebar.js:17-22 | "manual" shows "Manual", "autonomous" shows "Autonomous", each with its class |
| Sidebar.ModeLabelIdempotent | src/components/Sidebar/Sidebar.js:22 | capitalising a label again changes nothing |
| Sidebar.RowFor | src/components/Sidebar/Sidebar.js:28-44 | one boat's row throws exactly when its status is truthy and not text; otherwise it shows the record's own id and a status text that is never falsy |
| Sidebar.RowsFor | src/components/Sidebar/Sidebar.js:28-45 | the `map` callback throws iff some boat's status throws; otherwise one row per boat, in order |
| Sidebar.BoatListFor | src/components/Sidebar/Sidebar.js:26-49 | "No boats online." for an empty fleet; a TypeError iff some status throws; otherwise React's refusal iff some id is an object (or an array holding one); otherwise one row per boat, each with a renderable id |
| Sidebar.ShapedStoreAllStationKeeping | src/components/Sidebar/Sidebar.js:28-45 | on records of the store the list renders iff every id is a valid React child, and then every boat shows as station-keeping |
| Sidebar.ObjectIdBreaksList | src/components/Sidebar/Sidebar.js:30 | the store accepts `{boat_id: {n: 1}, data: {}}` as a first event, and the list of the resulting fleet throws |

## Left out

- The socket.io transport and every fetch. A socket is an abstract handle with a state, and its events are methods. The server list arrives as a parameter of `HeaderBar.Header.OnServersLoaded`.
- The banner timers in `src/components/Header/Header.js:42-51`. The 500 ms check reads a stale `isConnected`, which is always false. As a result, after every connect the banner would show. The model keeps only the banner shown in the `catch` branch.
- The cleanup effect in `src/Context/socketContext.js:59-65` is not modelled. Its dependency is the socket, so it runs on every socket change as well as on unmount, and it disconnects the previous socket. That socket was already disconnected by `connect` or `disconnect`, so the call changes nothing.
- `src/contexts/SocketContext` is not part of this model. The header, the sidebar, both map views and the store import it; the sidebar takes its command mode from it, and the store its `boat_data` subscription. All of them are modelled against `src/Context/socketContext.js`.
- `src/Context/boatContext`, which the window views import, is not part of this model either. The window views read the same store model.
- The JSON and CSV encoding of downloads, `encodeURIComponent`, and the anchor click. A download is a file name and the records it holds. The CSV branch that is never taken (`fileType` is always "json") is modelled as `Csv.ConvertToCsv` on its own.
- Recording.RecordingProvider.SaveDataToFileBoat (and so `StopRecordingBoat` and `SavedBoat`): for a boat never recorded whose key names an inherited member, the source reads that member as the buffer. When its `length` is not 0, it downloads that member's JSON text, `undefined` or `{}`. The model downloads nothing here, because a download holds records.
- `JsValues.InheritedText`: the text of a built-in function is engine-defined. The model uses the common form `function toString() { [native code] }`.
- MapAutonomous.AutonomousControl.FollowTarget: the target id is compared with `===`, which for an array or object id is reference identity. The default target (`src/components/Map/AutonomousControl.js:84-88`) and a marker click (`src/components/Map/AutonomousControl.js:276`) copy a record's own id, and an update keeps that reference (`src/contexts/BoatContext.js:24-25`). So JavaScript finds that record, while the model finds none, since its values carry no reference. For primitive ids the two agree.
- WindowAutonomous.AutonomousControl.LookupBoat: the same reference-identity gap, for the default target copied at `src/Window/autonomousControl.js:54-58`.
- `new Date().toISOString()`, `Math.random()` and the clipboard. They are parameters: `isoNow`, `pick`, `clipboardAccepted`.
- `MapAutonomous.AutonomousControl.HandleMapClick`, `MapAutonomous.PastedTarget` and `MapAutonomous.AutonomousControl.FollowTarget` take coordinates that are already rounded. The `toFixed(6)`/`parseFloat` rounding is not modelled.
- `MapManual.ManualControl.HandleJoystickMove` and the window handlers take set-points that are already scaled and rounded. `Math.round(event.x * 90)` is not modelled, and neither is `parseInt` for the sail.
- Numbers are carried as display text. `-0`, which `Math.round` can produce and which `Object.is` distinguishes from `0`, is not modelled. Neither is any arithmetic on coordinates.
- The lodash `throttle` around the map's manual `sendData`. A fresh throttled sender is built whenever a dependency changes, and its leading call fires at once. The model sends once per change and does not model the rate limit on repeated calls of one sender.
- React scheduling. Each handler or effect is one atomic step. Dependency-array re-runs are explicit calls, and for the send effects they are a comparison with `lastDeps`.
- `JsValues.SpreadOf`: spreading a string or an array contributes nothing in the model. In JavaScript it contributes index keys.
- JavaScript places integer-like keys before the others in an object. The model keeps insertion order for all keys.
- `Sidebar.ModeLabel` upper-cases ASCII letters only.
- The trail/status effect mutates arrays in place, and those arrays are shared with the previous state through a shallow copy (`src/components/Map/AutonomousControl.js:91-102`). The model replaces the map value. Within the modelled state nothing reads the previous state afterwards, so the difference cannot be seen there. It can be seen in the map rendering, which is left out: the same array object is passed to each trail's `Polyline` on every render (`src/components/Map/AutonomousControl.js:349-354`), so a renderer that redraws only when `positions` is a new reference keeps showing the points the trail had when it was first drawn.
- Map rendering, markers, heatmaps, wind interpolation, the legend, the app shell, the modal, the banner component, `src/Window/header.js`, `src/Window/sideBar.js` and `src/simpleapp.js` are presentation or I/O.

## Findings

| source | as written | input that shows it | evidently intended | confidence | as-written member | corrected member |
|---|---|---|---|---|---|---|
| src/components/Header/Header.js:56-60 | `handleServerChange` stores the choice and then calls `disconnect()`. Whenever a socket is held, that call blanks the selection. The server-list effect (lines 23-33) then re-runs and selects the first listed server. | Servers A and B are listed. Connect to A, then pick B: the selection ends on A. | The picked server stays selected: drop the socket first, then store the choice. | medium, not executed; the header imports `contexts/SocketContext`, which is not part of this model and is assumed to behave as `src/Context/socketContext.js` | HeaderBar.SwitchServerAsWritten | HeaderBar.SwitchServer |
