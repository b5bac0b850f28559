# BLE GPS receiver: a Dafny model of the activity's non-UI logic

This project models the logic of `MainActivity` in an Android app. The app finds Bluetooth devices and connects to a GPS peripheral over BLE GATT. It subscribes to one characteristic, whose notifications carry `"<lat>,<lng>[,...]"` text frames, and collects the decoded frames into a track of `GpsPoint`s.

The model covers three parts:

- **Frame parser** (`GpsFrame`, built on `Text`). `parseAndStoreGpsData` trims the payload, splits it on `,`, parses fields 0 and 1, and appends a point only when both parse.
- **Connection status machine** (`Session`). The commands `connectToDevice` and `disconnectFromDevice`, and the `gattCallback` handlers, change the connection status, the last payload text (`gpsData`), the device name, the GATT handle and the track.
- **Discovery bookkeeping** (`Discovery`). This is the `ACTION_FOUND` / discovery-started / discovery-finished receiver, the precondition chain of `startDiscovery`, `stopDiscovery` and `loadPairedDevices`.

Every callback in the app is posted to the main thread. So `Activity` models the app as one pure step function `Step(State, Event)`. It folds that function over event sequences with `Run`. `Scenarios` states whole-session consequences over concrete event sequences.

Calls the app makes into the platform are not performed. `connectGatt`, `discoverServices`, `setCharacteristicNotification`, `writeDescriptor`, `cancelDiscovery`, `startDiscovery`, the permission request and opening the location settings are all returned, in order, as `Platform.Effect` values. Values read from the platform become event parameters:

- whether the adapter is enabled;
- whether location is on;
- whether a discovery is already running;
- the bonded-device set;
- GATT status codes;
- whether a service, characteristic or descriptor was found;
- notification payloads.

Adapter presence is fixed in the state when the activity is created. `String.toDoubleOrNull` is left abstract: every parsing member takes a parameter `toDouble: string -> Option<D>`, where `D` stands for `Double`. The status strings are the enum `Session.Status`. `Session.Label` gives the exact text shown for each status, and `Session.StatusOf` reads it back.

Behaviour worth knowing:

- `connectToDevice` does not clear the track. Only `disconnectFromDevice` clears it.
- A GATT callback carries nothing that ties it to the connection it came from. Late callbacks therefore still change the state (`Scenarios.LateCallbacksAfterDisconnect`).
- No handler looks at the current status. A CCCD acknowledgement sets "Receiving data" from any status, and notifications are handled in every status.
- A missing CCCD is its own error ("Error: CCCD not found"). A failed discovery is "Error: Service discovery failed". An unsolicited link loss shows "Disconnected", not an error, and keeps the track and the device name.
- `String(value, Charsets.UTF_8)` replaces malformed bytes, so turning a notification into text never fails.
- Scanning is a single flag, set and cleared only by the adapter's broadcasts. Discovered devices are de-duplicated by address, because `BluetoothDevice.equals` compares addresses.

## Model

| member | source | states |
|---|---|---|
| Text.TrimStart | app/src/main/java/com/example/myapplication/MainActivity.kt:531 | the result is the suffix of the input left after dropping all leading whitespace: every dropped char is whitespace and the result does not start with one |
| Text.TrimEnd | app/src/main/java/com/example/myapplication/MainActivity.kt:531 | the result is the prefix left after dropping all trailing whitespace: every dropped char is whitespace and the result does not end with one |
| Text.Trim | app/src/main/java/com/example/myapplication/MainActivity.kt:531 | `trim()` yields a contiguous infix of the input that neither starts nor ends with whitespace, and every character it drops before or after that infix is whitespace |
| Text.TrimFixpoint | app/src/main/java/com/example/myapplication/MainActivity.kt:531 | a string is unchanged by `trim()` exactly when it is empty or has no whitespace at either end |
| Text.TrimIdempotent | app/src/main/java/com/example/myapplication/MainActivity.kt:531 | trimming twice equals trimming once |
| Text.TrimKeepsAbsent | app/src/main/java/com/example/myapplication/MainActivity.kt:531 | trimming never introduces a character, so a payload without a comma still has none after trimming |
| Text.Split | app/src/main/java/com/example/myapplication/MainActivity.kt:531 | `split(",")` yields at least one part and no part contains the delimiter |
| Text.SplitJoin | app/src/main/java/com/example/myapplication/MainActivity.kt:531 | joining the parts of a split with the delimiter gives the original text back |
| Text.JoinSplit | app/src/main/java/com/example/myapplication/MainActivity.kt:531 | splitting a join of one or more delimiter-free parts gives exactly those parts back |
| Text.SplitNoSeparator | app/src/main/java/com/example/myapplication/MainActivity.kt:531 | text without the delimiter splits into itself alone |
| Text.SplitAfterField | app/src/main/java/com/example/myapplication/MainActivity.kt:531 | a delimiter-free field followed by the delimiter becomes the first part, and the rest splits independently |
| Text.SplitCount | app/src/main/java/com/example/myapplication/MainActivity.kt:531-532 | the number of parts is the number of delimiters plus one |
| GpsFrame.Fields | app/src/main/java/com/example/myapplication/MainActivity.kt:531 | the fields of a payload are at least one and are comma-free, and joined back with commas they give exactly the trimmed payload |
| GpsFrame.Store | app/src/main/java/com/example/myapplication/MainActivity.kt:529-549 | earlier points are kept in order; exactly one point is appended when the payload decodes, and it is the decoded point; otherwise the track is unchanged |
| GpsFrame.FormatParse | app/src/main/java/com/example/myapplication/MainActivity.kt:531-538 | round trip: a frame `lat,lng[,extra...]` that starts and ends with a non-blank (empty fields such as the last one of `1,2,` included) decodes to the point of its two parsed fields, whatever the extra fields; it decodes to nothing when either field fails to parse |
| GpsFrame.FormatFields | app/src/main/java/com/example/myapplication/MainActivity.kt:531 | the fields of a frame that starts and ends with a non-blank are exactly the parts it was written from, empty parts included |
| GpsFrame.FormatTrimmed | app/src/main/java/com/example/myapplication/MainActivity.kt:531 | a frame that starts and ends with a non-blank is left unchanged by `trim()`, whatever its first and last fields are |
| GpsFrame.NoDelimiterNoPoint | app/src/main/java/com/example/myapplication/MainActivity.kt:531-545 | a payload without a comma has fewer than two fields and never yields a point |
| GpsFrame.SecondFieldPresent | app/src/main/java/com/example/myapplication/MainActivity.kt:531-532 | the size check passes exactly when the trimmed text contains a comma |
| GpsFrame.ParseAccepts | app/src/main/java/com/example/myapplication/MainActivity.kt:531-545 | `GpsFrame.Parse` yields a point exactly when the trimmed payload has a comma and fields 0 and 1 both parse; the point holds those two values; without a comma it yields nothing |
| Discovery.Fresh | app/src/main/java/com/example/myapplication/MainActivity.kt:56-58 | initially no scan runs and both device lists are empty |
| Discovery.DeviceFound | app/src/main/java/com/example/myapplication/MainActivity.kt:103-116 | ACTION_FOUND without a device changes nothing; a device whose address is already listed changes nothing; otherwise the found device itself is appended at the end; the list keeps its order and its addresses distinct, and afterwards lists exactly the old addresses plus the found one |
| Discovery.CheckScan | app/src/main/java/com/example/myapplication/MainActivity.kt:270-313 | the checks are made in the order permissions, adapter present, adapter enabled, location on; the first failure decides the outcome |
| Discovery.StartDiscovery | app/src/main/java/com/example/myapplication/MainActivity.kt:266-334 | on any failed check the scan state is unchanged; a missing permission calls only the permission request, a missing or disabled adapter calls nothing, location off calls only the location settings; when all checks pass the discovered list is cleared and the calls are a cancel (only if a discovery is running) followed by the start; the scanning flag and the paired list are untouched |
| Discovery.StopDiscovery | app/src/main/java/com/example/myapplication/MainActivity.kt:336-340 | no state changes; with permissions and an adapter the only call is one cancellation, otherwise nothing is called |
| Discovery.LoadPairedDevices | app/src/main/java/com/example/myapplication/MainActivity.kt:250-257 | without permissions nothing changes; otherwise the paired list is replaced by the bonded devices, or emptied when there is no adapter or no bonded set; the discovered list is untouched |
| Session.Label | app/src/main/java/com/example/myapplication/MainActivity.kt:361-475 | each status has its own exact text, and reading that text back gives the status |
| Session.ErrorLabel | app/src/main/java/com/example/myapplication/MainActivity.kt:442-475 | exactly the five error statuses are shown with the "Error: " prefix |
| Session.Closed | app/src/main/java/com/example/myapplication/MainActivity.kt:64-70 | the initial link has no handle, status Disconnected, "No data", no device name and an empty track |
| Session.Connect | app/src/main/java/com/example/myapplication/MainActivity.kt:354-369 | without permissions nothing changes and nothing is called; with them the status becomes Connecting, the device name is set, and the text and track are kept; the calls are exactly: close the open handle if there is one, then open the new connection |
| Session.Disconnect | app/src/main/java/com/example/myapplication/MainActivity.kt:372-381 | from any link the result is the initial link with an empty track; an open handle is disconnected and then closed |
| Session.OnConnectionStateChange | app/src/main/java/com/example/myapplication/MainActivity.kt:385-403 | on connected the status is Connected and the only call is service discovery; on disconnected the status is Disconnected, the text "No data" and nothing is called; handle, name and track are always kept; other states change nothing and call nothing |
| Session.DiscoveryStatus | app/src/main/java/com/example/myapplication/MainActivity.kt:406-463 | decision chain: a failed status, then a missing service, characteristic or CCCD, each give its own error; otherwise Waiting for data |
| Session.OnServicesDiscovered | app/src/main/java/com/example/myapplication/MainActivity.kt:406-463 | only the status changes; when the result is Waiting for data the calls are enabling notifications then writing the CCCD; with a missing CCCD only notifications are enabled; every other result calls nothing |
| Session.OnDescriptorWrite | app/src/main/java/com/example/myapplication/MainActivity.kt:465-479 | non-CCCD writes are ignored; for the CCCD, success gives Receiving data and any other status the notifications error; nothing else changes |
| Session.OnNotification | app/src/main/java/com/example/myapplication/MainActivity.kt:509-526 | another characteristic changes nothing; for the GPS characteristic the text becomes the payload and the track grows by one point exactly when the payload decodes; only the text and the track change |
| Session.OnLegacyNotification | app/src/main/java/com/example/myapplication/MainActivity.kt:481-507 | with a value it behaves as the new API; a null value sets only the text "Error: null value" and appends nothing |
| Activity.Init | app/src/main/java/com/example/myapplication/MainActivity.kt:200-230 | after creation the link is closed, no scan runs, nothing is discovered, and paired devices are loaded only when every permission is granted |
| Activity.Step | app/src/main/java/com/example/myapplication/MainActivity.kt:84-96 | no event changes adapter presence, and only the permission callback changes the permission flag |
| Activity.Run | app/src/main/java/com/example/myapplication/MainActivity.kt:146 | adapter presence is the same after any sequence of events |
| Activity.PermissionsResultStep | app/src/main/java/com/example/myapplication/MainActivity.kt:84-96 | the permission flag becomes the request's outcome; only a full grant reloads the paired devices (the bonded set, or none without an adapter or bonded set); the discovered list, scanning flag, adapter and link are untouched and nothing is called |
| Activity.DisconnectResets | app/src/main/java/com/example/myapplication/MainActivity.kt:372-381 | from any state, disconnect gives Disconnected, "No data", an empty name, an empty track and no handle, and leaves the scan lists alone; a second disconnect changes nothing and calls nothing |
| Activity.StepPoints | app/src/main/java/com/example/myapplication/MainActivity.kt:383-527 | every event other than disconnect appends to the track exactly the points its payload decodes to |
| Activity.RunPoints | app/src/main/java/com/example/myapplication/MainActivity.kt:354-369 | without a disconnect the track only grows: it ends as the starting track followed by the decodable notifications' points, in arrival order; connecting never clears it |
| Activity.RunPointsAfterDisconnect | app/src/main/java/com/example/myapplication/MainActivity.kt:372-381 | after any run, the track holds exactly the points decoded since the last disconnect |
| Activity.StepKeepsDistinct | app/src/main/java/com/example/myapplication/MainActivity.kt:110-115 | no event puts a duplicate address into the discovered list |
| Activity.RunKeepsDistinct | app/src/main/java/com/example/myapplication/MainActivity.kt:110-115 | over any event sequence the discovered list stays free of duplicate addresses |
| Activity.RunKeepsDiscovered | app/src/main/java/com/example/myapplication/MainActivity.kt:316-323 | without a start-scan command, the discovered devices keep their place at the front of the list |
| Activity.RunScanFlag | app/src/main/java/com/example/myapplication/MainActivity.kt:117-124 | the scanning flag is whatever the last discovery-started or discovery-finished broadcast set, and is unchanged when there was none |
| Activity.NotificationStep | app/src/main/java/com/example/myapplication/MainActivity.kt:515-524 | in any state, a GPS-characteristic notification sets the text to its payload and stores the payload into the track, and nothing else changes |
| Activity.NotificationTouchesOnlyData | app/src/main/java/com/example/myapplication/MainActivity.kt:509-526 | in any status a notification changes only the text and the track; a foreign characteristic changes nothing |
| Activity.LegacyNotificationAgrees | app/src/main/java/com/example/myapplication/MainActivity.kt:481-526 | the legacy and the new notification paths give the same result whenever the legacy value is not null |
| Scenarios.HappyPath | app/src/main/java/com/example/myapplication/MainActivity.kt:354-479 | connect, link up, full lookup and an acknowledged CCCD write go Connecting, Connected, Waiting for data, Receiving data, and keep the track |
| Scenarios.MissingCharacteristicThenReconnect | app/src/main/java/com/example/myapplication/MainActivity.kt:445-449 | a missing characteristic ends in its error; reconnecting restarts at Connecting, closes the old handle first, and keeps the track |
| Scenarios.PairParses | app/src/main/java/com/example/myapplication/MainActivity.kt:529-538 | the text `lat,lng` with two parseable fields decodes to the point of those values |
| Scenarios.StreamSkipsMalformedFrame | app/src/main/java/com/example/myapplication/MainActivity.kt:521-524 | a good, a malformed and a good frame add exactly the two good points, in order, and leave the status alone |
| Scenarios.ExampleStream | app/src/main/java/com/example/myapplication/MainActivity.kt:521-538 | frames written as `lat,lng`, a comma-free frame, and another `lat,lng` add exactly the two points, in order, and leave the status alone |
| Scenarios.StreamExample | app/src/main/java/com/example/myapplication/MainActivity.kt:529-545 | "37.7,-122.4", "bad-data", "37.8,-122.5" while receiving add two points and keep Receiving data |
| Scenarios.LateCallbacksAfterDisconnect | app/src/main/java/com/example/myapplication/MainActivity.kt:465-471 | after a disconnect, a late CCCD acknowledgement still shows Receiving data and a late notification still lands in the fresh track |
| Scenarios.UnsolicitedDisconnectKeepsTrack | app/src/main/java/com/example/myapplication/MainActivity.kt:395-401 | an unsolicited STATE_DISCONNECTED shows Disconnected and "No data" but keeps the device name and the track |

## Left out

- Jetpack Compose UI (`BluetoothTestScreen`, `DeviceCard`, button enablement, colours): rendering only.
- `GpsMapView` and its centroid `average()`: floating-point arithmetic feeding the map view.
- The Android Bluetooth, location, permission and settings APIs: they appear only as event parameters and as emitted `Effect`s. What they do is not modelled, and neither is a `null` return from `connectGatt`.
- Main-thread marshalling through `mainHandler` and the Binder callback threads: events are taken as already serialised in posting order. A GATT call made directly in a callback (`discoverServices`, `writeDescriptor`) is emitted together with the posted status change.
- `String.toDoubleOrNull`: an abstract parameter, so number syntax, NaN and infinities are not modelled.
- UTF-8 decoding of notification bytes, the hex dumps, `Log`, `Toast` and the API-key lookup in `onCreate`: payloads arrive as already-decoded text.
- `debugMessage`: the diagnostic text `startDiscovery` builds has the same role as the log and toasts, so only the outcome of its checks is modelled.
- The value `startDiscovery()` returns: it only selects a toast.
- `updateBluetoothState` and its label: ACTION_STATE_CHANGED is an event that changes no modelled state.
- `onDestroy`, `checkPermissions`' per-SDK permission lists and `requestPermissions`: outside the modelled logic. The permission outcome enters as `PermissionsResult` or as an argument of `Activity.Init`.
- The `try`/`catch` in `parseAndStoreGpsData`: nothing inside the `try` throws, so the handler is unreachable.
- Text.IsWhitespace: models Kotlin's `Char.isWhitespace` by a fixed list of characters (the ASCII controls plus the Unicode space, line and paragraph separators), not by the platform's Unicode tables.
