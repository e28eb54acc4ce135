# TREM client core, modelled in Dafny

TREM is the desktop client for ExpTech's earthquake service. It receives real-time
ground-motion snapshots ("rts"), earthquake early-warning bulletins ("eew") and
earthquake reports over HTTP and over a WebSocket. This project models the parts of
the client that decide things, and proves what they promise:

- the post-processing of earthquake reports. The report number is read from the id.
  The overall intensity is the maximum over the areas. The area → town object becomes
  arrays sorted by intensity, largest first. Stations are annotated with their district.
- the WebSocket controller of `ExpTechApi`: connect, send the config, dispatch
  messages, reconnect, destroy.
- the URL builders of both `Route` classes. The `Math.random()` draw is a parameter.
- the location-text and timestamp helpers.
- the callbacks of the once-a-second poll, which would merge snapshots and bulletins
  into their stores. As the client is wired, no response reaches them: both requests
  reject first (see "## Left out"). The model says what they do with a response.
- the report store and the account store.

Modules:
- `Js`: the JavaScript built-ins the code relies on.
- `ReportShape`: the report transforms, identical in both API wrappers.
- `ScriptsApi`, `ScriptsSocket`, `ScriptsRoute`: `src/scripts/class/`.
- `ClassApi`, `ClassRoute`: `src/class/`.
- `Utils`, `GlobalPoll`, `ReportStore`, `AccountStore`.

Each request's response, each `Math.random()` draw and each WebSocket event is an
input. Each socket call, timer and emitted event is an output action.

## Model

| member | source | states |
|---|---|---|
| `Js.NatToString` | src/scripts/class/route.ts:29 | `${n}` has at least one digit, only digits, and no leading zero |
| `Js.ToNumberOfIntToString` | src/scripts/class/route.ts:29 | reading `${i}` back with unary `+` gives i again, negatives included |
| `Js.IntToString` | src/scripts/class/route.ts:29 | `${i}` for an integer begins with `-` exactly when i is negative; `Js.ToNumberOfIntToString` reads it back |
| `Js.ToNumber` | src/scripts/class/api.ts:642 | unary `+` on text: empty text is 0, an optionally signed run of decimal digits is its value, and any other text maps to the opaque `OtherValue` (see "## Left out"); `Js.ToNumberOfIntToString` is its round trip |
| `Js.RandomIndex` | src/scripts/class/route.ts:16 | `Math.ceil(r*n)` for r in [0,1) is the least integer not below r*n; it lies in 0..n and is 0 exactly when r is 0 |
| `Js.Ceil` | src/scripts/class/route.ts:16 | `Math.ceil`; `Js.CeilRange` proves it is the least integer not below x and bounds it on [0, m] |
| `Js.CeilRange` | src/scripts/class/route.ts:16 | for x in [0, m], `Math.ceil(x)` lies in 0..m, is the least integer not below x, and is 0 exactly when x is 0 |
| `Js.IndexOf` | src/scripts/helper/utils.ts:2 | `indexOf` gives -1 exactly when the character is absent, otherwise its first position |
| `Js.Clamp` | src/scripts/helper/utils.ts:3-5 | a `substring` argument is clamped into [0, length] |
| `Js.Substring` | src/scripts/helper/utils.ts:3-5 | `substring` is the slice between the clamped arguments, swapped when the first is larger; it is always a contiguous part of the input |
| `Js.PadStart` | src/scripts/helper/utils.ts:13-20 | `padStart` never truncates; a shorter text is preceded by pad characters up to the length |
| `Js.SplitFirst` | src/scripts/class/api.ts:642 | `split("-")[0]` is a prefix with no `-`, followed by `-` when shorter than the input |
| `Js.Join` | src/scripts/helper/utils.ts:10-22 | `join(sep)` puts the separator between consecutive parts; `Utils.Join3` states it for three parts |
| `Js.ErrorText` | src/scripts/class/api.ts:647 | `${error}` of a thrown Error is its name, `: ` and its message; `ScriptsApi.GetReports` states the full rethrown text |
| `Js.IsOk` | src/scripts/class/api.ts:605-609 | `res.ok`: a status from 200 to 299; every `Get` states its result in terms of it |
| `Js.Keys` | src/scripts/class/api.ts:666 | `Object.keys` lists the keys in order, one per entry |
| `Js.KeysOnce` | src/scripts/class/api.ts:666 | in a JSON object, `Object.keys` lists each key exactly once |
| `Js.MapSet` | src/stores/report_store.ts:8 | `Map.set` puts a new key last and leaves an existing key where it is; its entry becomes the value |
| `Js.EmptyMap` | src/stores/report_store.ts:5 | `new Map()` is valid, with no keys and no entries |
| `Js.MapSetValid` | src/stores/report_store.ts:8 | `Map.set` keeps a map valid; the size grows by one exactly when the key is new; other entries are unchanged |
| `Js.MapValues` | src/stores/report_store.ts:12 | `Array.from(map.values())` lists the entries in key insertion order |
| `Js.MapKeysCount` | src/stores/report_store.ts:12 | a map has as many keys in its order as it has entries |
| `Js.MapValuesSize` | src/stores/report_store.ts:12 | the listed values are as many as the map's size |
| `Js.MapSize` | src/stores/report_store.ts:12 | `size` counts the entries; `Js.MapKeysCount` and `Js.MapValuesSize` tie it to the keys and values |
| `ReportShape.ReportNoOfNumberedId` | src/scripts/class/api.ts:642 | an id `<n>-<rest>` yields report number n |
| `ReportShape.ReportNo` | src/scripts/class/api.ts:642 | the report number is unary `+` of the id's text before the first `-`; `ReportShape.ReportNoOfNumberedId` gives its value |
| `ReportShape.Numbered` | src/scripts/class/api.ts:641-643 | an entry with `no` set from its id and every other field kept; `ReportShape.NumberReports` applies it to each entry |
| `ReportShape.NumberReports` | src/scripts/class/api.ts:641-643 | the loop sets every list entry's `no` from its id, in place, and changes nothing else |
| `ReportShape.ReduceMaxIntIsMax` | src/scripts/class/api.ts:662-665 | the `reduce` is at least its seed and every area's `int`, and equals the seed or one of them |
| `ReportShape.ReduceMaxInt` | src/scripts/class/api.ts:662-665 | the fold keeps the larger of the accumulator and each area's `int`; `ReportShape.ReduceMaxIntIsMax` proves it is the maximum |
| `ReportShape.InsertDesc` | src/scripts/class/api.ts:675 | inserting into the sorted list adds exactly that element |
| `ReportShape.SortDesc` | src/scripts/class/api.ts:675-677 | the stable sort by `b.int - a.int` returns a permutation of its input |
| `ReportShape.InsertDescSorted` | src/scripts/class/api.ts:675 | inserting into a list sorted by intensity (largest first) keeps it sorted |
| `ReportShape.SortDescSorted` | src/scripts/class/api.ts:675-677 | the sort's result is sorted by intensity, non-increasing |
| `ReportShape.InsertDescProject` | src/scripts/class/api.ts:675 | insertion adds the element's projection to the projected multiset |
| `ReportShape.SortDescProject` | src/scripts/class/api.ts:675-677 | sorting keeps the multiset of any projection, e.g. of the `area` names |
| `ReportShape.SortDescMembers` | src/scripts/class/api.ts:675-677 | sorting keeps exactly the elements it was given |
| `ReportShape.InsertDescWithKey` | src/scripts/class/api.ts:675 | insertion puts the new element before every element with the same key and keeps the order of each key's elements |
| `ReportShape.SortDescStable` | src/scripts/class/api.ts:675-677 | the sort is stable: for every key, the elements with that key keep their original relative order |
| `ReportShape.Project` | src/scripts/class/api.ts:666-669 | a `map` over an array is elementwise, with the same length |
| `ReportShape.Stations` | src/scripts/class/api.ts:670-674 | there is one station per town key |
| `ReportShape.Areas` | src/scripts/class/api.ts:666-669 | there is one area entry per area key |
| `ReportShape.StationOf` | src/scripts/class/api.ts:671-674 | a town's reading spread into a station named by its key; `ReportShape.AreaStations` states the result |
| `ReportShape.AreaOf` | src/scripts/class/api.ts:667-675 | an area entry named by its key, with its int and its stations sorted; `ReportShape.AreaStations` states the result |
| `ReportShape.ShapeReportIntensity` | src/scripts/class/api.ts:660-665 | the report's `int` is at least 0 and at least every area's `int`, and when positive it is one of them |
| `ReportShape.ShapeReportSorted` | src/scripts/class/api.ts:666-677 | areas are sorted by `int`, non-increasing, and so are the stations inside each area |
| `ReportShape.ShapeReportAreas` | src/scripts/class/api.ts:666-669 | the area list holds exactly the entries built from the keys, and its `area` names are the keys, as a multiset |
| `ReportShape.ShapeReportAreaOnce` | src/scripts/class/api.ts:666-669 | each area key appears exactly once as an `area` |
| `ReportShape.AreaStations` | src/scripts/class/api.ts:670-675 | an area's stations are exactly the `{...town[k], station: k}` entries, and their names are the town keys, as a multiset |
| `ReportShape.AreaStationOnce` | src/scripts/class/api.ts:670-675 | each town key appears exactly once as a `station` |
| `ReportShape.ShapeReportShapedFrom` | src/scripts/class/api.ts:660-679 | the shaped report has every property above at once |
| `ReportShape.ShapeReport` | src/scripts/class/api.ts:660-677 | the `getReport` transform; `ReportShape.ShapeReportShapedFrom` proves every property above of it |
| `ScriptsApi.FindValue` | src/scripts/class/api.ts:406-417 | a lookup by value finds a table entry with that value, or none when no entry has it |
| `ScriptsApi.FindTag` | src/scripts/class/api.ts:406-417 | a lookup by label finds a table entry with that label, or none when no entry has it |
| `ScriptsApi.FindValueFirst` | src/scripts/class/api.ts:406-417 | the lookup by value returns the first entry with that value |
| `ScriptsApi.FindTagFirst` | src/scripts/class/api.ts:406-417 | the lookup by label returns the first entry with that label |
| `ScriptsApi.IntensityTableShape` | src/scripts/class/api.ts:406-417 | the `Intensity` table has ten levels indexed by value, with distinct labels and distinct texts |
| `ScriptsApi.FindValueIndexed` | src/scripts/class/api.ts:406-417 | in entries whose values count up, the lookup of a value finds the entry at that offset |
| `ScriptsApi.LevelOfRange` | src/scripts/class/api.ts:406-417 | exactly the values 0-9 have a level, and the level of v is entry v |
| `ScriptsApi.TagRoundTrip` | src/scripts/class/api.ts:406-417 | looking a level's label up again gives back its value |
| `ScriptsApi.IntensityTable` | src/scripts/class/api.ts:406-417 | the ten levels; `ScriptsApi.IntensityTableShape` states their shape |
| `ScriptsApi.LevelOf` | src/scripts/class/api.ts:406-417 | the `Intensity` level of a value; `ScriptsApi.LevelOfRange` states which values have one and which it is |
| `ScriptsApi.ValueOfTag` | src/scripts/class/api.ts:406-417 | the value of a label; `ScriptsApi.TagRoundTrip` proves it inverts `ScriptsApi.LevelOf` on 0-9 |
| `ScriptsApi.Get` | src/scripts/class/api.ts:605-609 | `#get` gives the body exactly for a 2xx status, otherwise an error naming the status |
| `ScriptsApi.GetReports` | src/scripts/class/api.ts:635-649 | on success, every report's `no` is the numeric id prefix and no other field changes; on failure, the prefixed error |
| `ScriptsApi.GetReport` | src/scripts/class/api.ts:656-683 | on success, the shaped report with every property of `ShapedFrom`; on failure, the error naming the id |
| `ScriptsApi.Annotate` | src/scripts/class/api.ts:618-621 | a station gets the `Code` city and town of its first record's district, or none for an unknown code; its other fields are kept |
| `ScriptsApi.CityOf` | src/scripts/class/api.ts:619 | the `Code` city of a district, absent for an unknown code; used by `ScriptsApi.AnnotatedEntry` |
| `ScriptsApi.TownOf` | src/scripts/class/api.ts:620 | the `Code` town of a district, absent for an unknown code; used by `ScriptsApi.AnnotatedEntry` |
| `ScriptsApi.GetStations` | src/scripts/class/api.ts:612-628 | on success, every station in key order is annotated from `Code`; a station without a record makes the call fail with the wrapped TypeError |
| `ScriptsApi.MissingInfoError` | src/scripts/class/api.ts:619 | the TypeError of reading `code` from a missing first record; `ScriptsApi.GetStations` wraps it |
| `ScriptsSocket.Init` | src/scripts/class/api.ts:479-493 | nothing happens once destroyed; otherwise an open socket is closed first and a socket to `websocket()` is opened last, and there is no other action |
| `ScriptsSocket.HandleOpen` | src/scripts/class/api.ts:495-498 | on open, the config with the current key is sent |
| `ScriptsSocket.HandleMessage` | src/scripts/class/api.ts:500-564 | Verify resends the config; Info 200 with an empty list closes with 4000 and emits no Ready; a non-empty list emits Ready; 503 schedules a resend after 5000 ms; rts/report emit their inner data; eew emits the whole envelope; ntp emits; anything else, unparseable included, does nothing; no message opens a socket |
| `ScriptsSocket.HandleClose` | src/scripts/class/api.ts:566-579 | Close is always emitted first; a reconnect after 5000 ms is scheduled exactly when the code is neither 1000 nor 4000, and there is no other action |
| `ScriptsSocket.SetApiKeyStep` | src/scripts/class/api.ts:461-472 | both keys become the new key; an open socket gets the new config, otherwise `#initWebSocket` runs |
| `ScriptsSocket.DestroyStep` | src/scripts/class/api.ts:474-477 | the controller is marked destroyed; the socket is closed with 1000, or a TypeError is thrown when none exists yet |
| `ScriptsSocket.NoSocketError` | src/scripts/class/api.ts:474-477 | the TypeError of calling `close` with no socket yet; `ScriptsSocket.DestroyStep` throws it |
| `ScriptsSocket.CloseCurrent` | src/scripts/class/api.ts:515 | `ws.close` on the tracked socket: connecting or open becomes closing; `ScriptsSocket.HandleMessage` states when it applies |
| `ScriptsSocket.NewController` | src/scripts/class/api.ts:437-459 | the constructor opens a socket exactly when the key is non-empty, and leaves the controller not destroyed |
| `ScriptsSocket.ResendDue` | src/scripts/class/api.ts:523-526 | when the 503 resend timer fires, the config with the current key is sent and the state is unchanged |
| `ScriptsSocket.Step` | src/scripts/class/api.ts:437-579 | each input goes to the handler that the source's listener, timer or method runs; `ScriptsSocket.StepWhenDestroyed` is its property |
| `ScriptsSocket.Run` | src/scripts/class/api.ts:437-579 | a run of inputs applies `Step` in order and collects the actions; `ScriptsSocket.DestroyedNeverOpens` is its property |
| `ScriptsSocket.StepWhenDestroyed` | src/scripts/class/api.ts:474-482 | for a destroyed controller, no input opens a socket or undoes the destruction |
| `ScriptsSocket.DestroyedNeverOpens` | src/scripts/class/api.ts:474-482 | once destroyed, no run of inputs ever opens a socket again |
| `ScriptsSocket.DestroyStopsReconnects` | src/scripts/class/api.ts:474-482 | after `destroy()`, whatever follows, no socket is opened |
| `ScriptsSocket.ExpTechApi.constructor` | src/scripts/class/api.ts:437-459 | the object's fields and first actions are those of `NewController` |
| `ScriptsSocket.ExpTechApi.InitWebSocket` | src/scripts/class/api.ts:479-493 | updates the fields and appends the actions as `Init` says |
| `ScriptsSocket.ExpTechApi.SetApiKey` | src/scripts/class/api.ts:461-472 | updates the fields and appends the actions as `SetApiKeyStep` says |
| `ScriptsSocket.ExpTechApi.Destroy` | src/scripts/class/api.ts:474-477 | updates the fields, appends the actions and throws as `DestroyStep` says |
| `ScriptsSocket.ExpTechApi.OnOpen` | src/scripts/class/api.ts:495-498 | the open listener, as `HandleOpen` says |
| `ScriptsSocket.ExpTechApi.OnMessage` | src/scripts/class/api.ts:500-564 | the message listener, as `HandleMessage` says |
| `ScriptsSocket.ExpTechApi.OnResendDue` | src/scripts/class/api.ts:523-526 | when the 503 resend timer fires, the current config is sent and nothing else changes |
| `ScriptsSocket.ExpTechApi.OnClose` | src/scripts/class/api.ts:566-579 | the close listener, as `HandleClose` says |
| `ScriptsRoute.NewRoute` | src/scripts/class/route.ts:10-13 | version defaults to 2 and key to "" only when absent; explicit values, 0 and "" included, are kept |
| `ScriptsRoute.RandomHostUrl` | src/scripts/class/route.ts:15-17 | the `lb-N` host for the draw; `ScriptsRoute.HostNumber` bounds N |
| `ScriptsRoute.RandomBaseUrl` | src/scripts/class/route.ts:19-21 | the host plus `/api/v` and the version; `ScriptsRoute.BaseUrlVersion` reads the version back |
| `ScriptsRoute.WebSocketUrl` | src/scripts/class/route.ts:23-25 | the `wss://lb-N` WebSocket URL; `ScriptsRoute.WebSocketHost` relates it to the host URL |
| `ScriptsRoute.EarthquakeReportList` | src/scripts/class/route.ts:27-33 | the report-list URL; `ScriptsRoute.ReportListLimit` reads its limit back |
| `ScriptsRoute.EarthquakeReport` | src/scripts/class/route.ts:35-37 | the report URL; `ScriptsRoute.ReportId` shows it ends with the id |
| `ScriptsRoute.Rts` | src/scripts/class/route.ts:39-45 | the real-time URL; `ScriptsRoute.RtsSuffix` states when the timestamp is appended |
| `ScriptsRoute.Eew` | src/scripts/class/route.ts:47-53 | the bulletin URL; `ScriptsRoute.EewSuffix` states when the timestamp is appended |
| `ScriptsRoute.Station` | src/scripts/class/route.ts:55-57 | the station-file URL; `ScriptsRoute.StationOutsideApi` places it outside the API path |
| `ScriptsRoute.HostNumber` | src/scripts/class/route.ts:15-17 | the host is `lb-N` with N = ceil(r*4), which is 1-4, or 0 only for a draw of exactly 0 |
| `ScriptsRoute.BaseUrlVersion` | src/scripts/class/route.ts:19-21 | the base URL is the host, then `/api/v`, then text that reads back as the version |
| `ScriptsRoute.WebSocketHost` | src/scripts/class/route.ts:23-25 | the socket URL has the host of the same draw, the `wss` scheme and the `/websocket` path |
| `ScriptsRoute.ReportListLimit` | src/scripts/class/route.ts:27-33 | the `limit` read back is the given limit when truthy, and 50 when absent or 0 |
| `ScriptsRoute.ReportId` | src/scripts/class/route.ts:35-37 | the report URL is the base, `/eq/report/`, then the id unchanged |
| `ScriptsRoute.RtsSuffix` | src/scripts/class/route.ts:39-45 | `/<timestamp>` follows `/trem/rts` exactly when the timestamp is a non-empty string |
| `ScriptsRoute.EewSuffix` | src/scripts/class/route.ts:47-53 | `/<timestamp>` follows `/eq/eew` exactly when the timestamp is a non-empty string |
| `ScriptsRoute.StationOutsideApi` | src/scripts/class/route.ts:55-57 | the station URL is on the host but not under the versioned API base |
| `ClassRoute.ApiHostNumber` | src/class/route.ts:6-8 | the report host is `api-N` with N = ceil(r*2), which is 1-2, or 0 only for a draw of exactly 0 |
| `ClassRoute.ReportListLimit` | src/class/route.ts:14-16 | `limit` is 50 only when omitted; an explicit 0 is sent as 0 |
| `ClassRoute.ReportUrl` | src/class/route.ts:18-20 | reports are under `/api/v2/eq/report/` on the `api-N` host, with the id last |
| `ClassRoute.RtsTime` | src/class/route.ts:22-28 | `/api/v1/trem/rts` on `lb-N` gets `/<time>` exactly when the time is present and non-zero, and the suffix reads back as the time |
| `ClassRoute.EewTime` | src/class/route.ts:30-36 | `/api/v1/eq/eew` on `lb-N` gets `/<time>` exactly when the time is present and non-zero, and the suffix reads back as the time |
| `ClassRoute.LbUrl` | src/class/route.ts:2-4 | the `lb-N` host for the draw, N from `Math.ceil(r*4)` |
| `ClassRoute.ApiUrl` | src/class/route.ts:6-8 | the `api-N` host; `ClassRoute.ApiHostNumber` bounds N |
| `ClassRoute.ReportList` | src/class/route.ts:14-16 | the report-list URL; `ClassRoute.ReportListLimit` reads its limit back |
| `ClassRoute.Report` | src/class/route.ts:18-20 | the report URL; `ClassRoute.ReportUrl` shows it ends with the id |
| `ClassRoute.Rts` | src/class/route.ts:22-28 | the real-time URL; `ClassRoute.RtsTime` states when the time is appended |
| `ClassRoute.Eew` | src/class/route.ts:30-36 | the bulletin URL; `ClassRoute.EewTime` states when the time is appended |
| `ClassRoute.StationUrl` | src/class/route.ts:10-12 | the fixed station-file URL, with no random draw |
| `Utils.ExtractLocationFromString` | src/scripts/helper/utils.ts:1-6 | the result is always a contiguous part of the input |
| `Utils.ExtractWithoutParen` | src/scripts/helper/utils.ts:2-3 | without `(`, the result is the prefix ending at the first `方` |
| `Utils.ExtractWithNeither` | src/scripts/helper/utils.ts:2-3 | with neither `(` nor `方`, the result is empty |
| `Utils.ExtractBetweenParens` | src/scripts/helper/utils.ts:4-5 | with `(` before `)` and room between them, the result is the text from three characters after `(` up to `)` |
| `Utils.ExtractUnclosedParen` | src/scripts/helper/utils.ts:4-5 | with `(` but no `)`, the arguments swap and the result is the prefix ending three characters after `(` |
| `Utils.Pad2Digits` | src/scripts/helper/utils.ts:13-20 | a component below 100 is printed as exactly two digits that read back as it |
| `Utils.Pad2KeepsLongText` | src/scripts/helper/utils.ts:13-20 | a component of two or more digits is printed unchanged |
| `Utils.Join3` | src/scripts/helper/utils.ts:11-15 | a three-part `join` puts the separator between the parts |
| `Utils.JoinLayout` | src/scripts/helper/utils.ts:10-22 | the nested joins give `y/mo/d h:mi:se` |
| `Utils.FormattedTimeLayout` | src/scripts/helper/utils.ts:10-22 | the formatted time is the year, `/`, month+1, `/`, day, a space, then hours, minutes and seconds joined by `:` |
| `Utils.TimeTailFields` | src/scripts/helper/utils.ts:10-22 | after the year, separators and two-character fields sit at fixed places |
| `Utils.ParseLayout` | src/scripts/helper/utils.ts:10-22 | a text with that layout reads back as its fields |
| `Utils.FormattedTimeRoundTrip` | src/scripts/helper/utils.ts:8-23 | the text is the year plus 15 characters, and reading it back gives the components, with the month 0-based again |
| `Utils.Pad2` | src/scripts/helper/utils.ts:13-20 | a field left-padded to two digits; `Utils.Pad2Digits` and `Utils.Pad2KeepsLongText` state it |
| `Utils.ToFormattedTimeString` | src/scripts/helper/utils.ts:8-23 | the `Y/MM/DD HH:mm:ss` text; `Utils.FormattedTimeRoundTrip` proves it parses back to the date |
| `GlobalPoll.NextRts` | src/global.ts:16-19 | a snapshot older than the store is ignored; one at least as recent is applied: its time and list replace the store's, and its station and box maps are merged: the snapshot's entries win, and entries it lacks keep their old readings |
| `GlobalPoll.RunRtsTime` | src/global.ts:14-20 | over any run of snapshots, the store's time never goes back and ends at the latest time seen |
| `GlobalPoll.PatchRts` | src/global.ts:19 | `$patch` one level deep: the station and box maps are merged, the new entries winning and the others kept, and time and list are replaced; `GlobalPoll.NextRts` states each part |
| `GlobalPoll.RunRts` | src/global.ts:14-20 | the store after a run of snapshot callbacks in resolution order; `GlobalPoll.RunRtsTime` is its property |
| `GlobalPoll.LatestTime` | src/global.ts:14-20 | the latest of the store's time and the snapshots' times, used by `GlobalPoll.RunRtsTime` |
| `GlobalPoll.RtsStore.constructor` | src/stores/rts_store.ts:5 | the store starts empty at time 0 |
| `GlobalPoll.InitialRts` | src/stores/rts_store.ts:5 | the initial store: no stations, no boxes, time 0, an empty list |
| `GlobalPoll.RtsStore.OnRtsPolled` | src/global.ts:15-20 | the store changes as `NextRts` says, when a response arrives (as wired, none does; see "## Left out") |
| `GlobalPoll.EewRecord` | src/global.ts:23-26 | the record's keys are the ids of the list; each id holds the last bulletin with that id, stored under its own id |
| `GlobalPoll.EewStore.constructor` | src/stores/eew_store.ts:5 | the store starts with no bulletin |
| `GlobalPoll.EewStore.OnEewPolled` | src/global.ts:21-28 | the record is merged into the store: the list's ids hold their last bulletins, and other ids are unchanged |
| `ReportStore.Store.constructor` | src/stores/report_store.ts:5 | both maps start empty |
| `ReportStore.Store.Set` | src/stores/report_store.ts:7-9 | the report is cached under its id; other cache entries and `partial` are unchanged; re-setting an id does not grow the cache |
| `ReportStore.Store.List` | src/stores/report_store.ts:12 | the partial reports in insertion order, as many as the map's size |
| `AccountStore.InitialState` | src/stores/account_store.ts:14-19 | no accounts and a null token |
| `AccountStore.Current` | src/stores/account_store.ts:21-30 | the account of the token exactly when the token is non-null, non-empty and a key of `list`; null otherwise |
| `AccountStore.InitialCurrentNull` | src/stores/account_store.ts:14-30 | in the initial state there is no current account |
| `ClassApi.ExpTechApi.constructor` | src/class/api.ts:9-12 | an absent or empty token is stored as "" |
| `ClassApi.ExpTechApi.SetToken` | src/class/api.ts:14-16 | the token is replaced and nothing else changes |
| `ClassApi.ExpTechApi.Get` | src/class/api.ts:30-34 | the body exactly for a 2xx status, otherwise "Server returned a status of N" |
| `ClassApi.ExpTechApi.Post` | src/class/api.ts:54-58 | the response exactly for a 2xx status, otherwise "Server returned N" |
| `ClassApi.ExpTechApi.GetReportList` | src/class/api.ts:65-73 | given a response, on success every report's `no` is the numeric id prefix and no other field changes; as wired, no response arrives (see "## Left out") |
| `ClassApi.ExpTechApi.GetReport` | src/class/api.ts:75-98 | given a response, on success the shaped report with every property of `ShapedFrom`, otherwise the `#get` error; as wired, no response arrives (see "## Left out") |
| `ClassApi.ExpTechApi.AuthBody` | src/class/api.ts:110-114 | the login body has exactly the keys `email`, `pass`, `name`, with `pass` taken from the password |

## Left out

- Network, JSON parsing and timers: `fetch`, `JSON.parse`, `window.setTimeout` and `setInterval` are outside the model. A response is a status plus an already-parsed body. A rejected `fetch` is not modelled: a network failure, or the connect timeout (2.5 s in `src/scripts/class/api.ts`, 2 s in `src/class/api.ts`). A timer is an action plus a later input.
- The WebSocket object: only the controller's current socket is tracked. Listeners of a socket that a later `#initWebSocket` has replaced are not modelled. Their `this.ws` refers to the newer socket. The browser's handling of `send` on a socket that is not open is not modelled either.
- The socket config's constant `type` ("start") and `service` list are not carried. A config send is modelled by the key it holds.
- The close code reported for `ws.close()` without a code (1005 in browsers) is the environment's choice. It arrives as an ordinary close input.
- Logging through the Tauri log plugin is not modelled. The `error` listener only logs.
- `getRts`, `getEew` and `getStations` in `src/class/api.ts` are not modelled. They are `#get` of a `Route` member that does not resolve: `this.route` is an instance, but `Route`'s members are static. So the poll in `src/global.ts` gets a rejected promise every second, and its callbacks (`GlobalPoll.RtsStore.OnRtsPolled`, `GlobalPoll.EewStore.OnEewPolled`) never run as the client is wired. `getAuthToken` calls a `login` route that does not exist. Only its body shape is modelled, and the body's JSON text and the POST response's text are not.
- `ClassApi.ExpTechApi.GetReportList`, `ClassApi.ExpTechApi.GetReport`: as wired, they reject before any request with the TypeError "this.route.reportList is not a function" (or "this.route.report is not a function"), because `Route`'s `reportList` and `report` are static and `this.route` is an instance. The model describes what they would do with a response.
- `getRts` and `getEew` in `src/scripts/class/api.ts` are not modelled beyond their URLs (`ScriptsRoute.Rts`, `ScriptsRoute.Eew`). They are `#get` calls with a wrapped error.
- Pinia's `$patch` is modelled one level deep. Maps are merged, with the new entries winning, and other values are replaced. The merge inside each station or bulletin object is not modelled.
- `ScriptsApi.GetStations`: the model treats the `Code` table as a parameter. It does not model the district file's contents.
- `Js.ToNumber`: only an optionally signed run of decimal digits is evaluated. Every other text is one opaque value, which stands for what `Number` gives. That is NaN in most cases, but JavaScript also reads surrounding white space (`" 12"`, `"12 "`), exponents (`"1e3"`), hexadecimal (`"0x10"`) and decimals (`"12.0"`) as numbers, and the model does not.
- `Js.Keys`: object keys are in insertion order. The ES rule that lists integer-like keys first in ascending order is not modelled.
- `Js.IntToString`, `Js.ToNumber`: JavaScript numbers are doubles, but the model uses unbounded integers. So `${n}` switching to exponent notation from 1e21, and `+s` rounding above 2^53, are not modelled. The values these functions are used on are timestamps in milliseconds, HTTP statuses and report-number prefixes, which stay far below these bounds.
- Strings are sequences of characters. UTF-16 surrogate pairs are not modelled.
- `Utils.FormattedTimeRoundTrip`: the date is given as its local-time components. The time-zone conversion of `new Date(ts)` and an invalid timestamp (which prints `NaN`) are not modelled.
- `AccountStore.Current`: `list` is modelled as holding only its own keys. A token that names an inherited `Object.prototype` member (such as `constructor`) would return that member in JavaScript; the model does not capture this.
- The TypeError texts are V8's wording, as in the WebView2 runtime. Other engines word them differently.
- Tauri/Rust plumbing, settings files, audio, colour scales, the timeout wrapper and constants are not part of this model.
