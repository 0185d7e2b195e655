# BluetoothClient in Dafny

This is a model of the core of the Kotlin Android library `BluetoothClient`. The library lets an application scan for, connect to and exchange data with Bluetooth devices. It works over Bluetooth Low Energy (GATT) or over Classic RFCOMM sockets, behind one facade. Each part of the library has its own module:

- **The facade** (`BluetoothClient`, `bluetooth_client.dfy`). It checks that the adapter is usable before scanning or connecting. It reconnects after failures while a reconnect budget lasts, and resends or rereads while a retry budget lasts. It runs every application callback on one serial handler thread, which `disconnect` clears.
  - The handler is a FIFO queue with a list of delayed tasks (`Handler`, `handler.dfy`).
  - The reconnect and retry decisions are pure functions over a small policy state (`RetryPolicy`, `retry.dfy`).
- **The BLE driver** (`BleClient`, `ble_client.dfy`). It covers:
  - the connection handshake: link up, an optional MTU exchange, service discovery, then the service check;
  - a single timeout slot, shared by connect, write and read;
  - tables of pending writes (keyed by the array's identity), pending reads (keyed by UUID) and notification receivers.
- **The Classic driver** (`ClassicClient`, `classic_client.dfy`). It covers:
  - bonding before connecting, and one RFCOMM socket per assigned service;
  - a reader thread with a cumulative budget of three read failures;
  - blocking writes that race a timer.
- **The value types and lookups** of `Client.kt` (`Client`, `client.dfy`). These are the enums, `Device`, `Service` and `Characteristic`, and the decoding of the GATT Characteristic Properties bit field. The bit values follow the Bluetooth Core Specification v5.3, Vol 3, Part G, section 3.3.1.1. The 32-bit two's-complement bit tests behind it are in `Bits` (`bits.dfy`).
- **The helper's decisions** (`BluetoothHelper`, `helper.dfy`):
  - the MTU range [23, 512]: 23 is the default LE ATT_MTU (Bluetooth Core Specification v5.3, Vol 3, Part F, section 3.2.8) and 512 is the maximum attribute value length (same part, section 3.2.9);
  - the required permissions per Android version;
  - the adapter-state classification;
  - the adapter switch;
  - the mapping of adapter broadcasts to on/off notifications.
- **The demo app's `toHex`** (`ByteArrayExt`, `hex.dfy`), with a decoder that is its exact inverse.
- **Kotlin's primitive types** (`Kotlin`, `kotlin.dfy`): 32-bit and 8-bit integers as newtypes, `Option` for nullable values, UUIDs as numbers, and byte arrays with an identity (Kotlin compares and hashes arrays by reference).

Android itself is not modelled. Everything the platform would answer is a parameter or an event. This covers adapter state, granted permissions, SDK level, the GATT stack's callbacks and return codes, socket outcomes, stream reads and timer expiry. Each driver is a state machine: `Step` applies one event and `Run` applies a sequence of them. Calls into Android are appended to a `native` log, and everything a callback would receive is appended to an output log. Properties are stated over those logs.

## Behaviour worth knowing

- `Device` is a Kotlin data class, so two devices are equal only when address, name, type and bonded flag all agree (`Client.DeviceEqualityIsStructural`). Equality is not by address alone.
- The Classic reader gives up after three read failures in total. Successful reads in between do not reset the count (`ClassicClient.ReceiveRunFacts`, `ClassicClient.InterleavedFailuresSpendTheBudget`). The three failures need not be consecutive.
- The Classic reader has no cancellation flag. It stops when the socket is no longer connected or when the failure budget is spent. At the end of the stream `read` returns -1, and allocating a buffer of that size throws an exception the loop does not catch, so the reader thread dies (`ClassicClient.ReceiveRunFacts`).
- A Classic write whose timer fires while the write blocks reports false. When the write returns, the same callback also hears the write's own outcome, so a stale completion is not ignored (`ClassicClient.TimerFirstAnswersTwice`).
- The Classic connect timeout races the blocking socket `connect()`. If the timer fires while it blocks, the caller hears CONNECT_TIMEOUT and then CONNECTED or CONNECT_ERROR, two final states for one connect (`ClassicClient.TimeoutDuringSocketConnectReportsTwice`).
- Classic `startScan` logs each bonded device with the size of its UUID array. The array is null until an SDP query has filled it, and a null array throws there. The devices before it have been reported; it and the ones after it are not (`ClassicClient.StartScan`).
- The facade's read closure logs a success by decoding the data with `!!`. A success without data throws before the caller's callback runs (`BluetoothClient.OnReadAnswer`). The BLE driver passes on whatever array the stack hands it, which may be null.
- BLE `disconnect` does not fail pending operations:
  - it drops the pending writes without calling them;
  - it keeps the pending reads, but cancels the only timer that could still complete them (`BleClient.Disconnect`, `BleClient.DisconnectStrandsPendingRead`).

## Model

Source paths are relative to the repository root.

| member | source | states |
|---|---|---|
| Client.DeviceTypeOf | library/src/main/java/com/zhzc0x/bluetooth/client/Client.kt:63-75 | Codes 1, 2 and 3 give CLASSIC, BLE and DUAL; every other code gives UNKNOWN, so the lookup is total. |
| Client.DeviceTypeRoundTrip | library/src/main/java/com/zhzc0x/bluetooth/client/Client.kt:63-75 | Looking up a type's own code gives that type back. |
| Client.ServiceTypeOf | library/src/main/java/com/zhzc0x/bluetooth/client/Client.kt:93-105 | Codes 0 and 1 give PRIMARY and SECONDARY; everything else gives UNKNOWN. |
| Client.ServiceTypeRoundTrip | library/src/main/java/com/zhzc0x/bluetooth/client/Client.kt:93-105 | Looking up a service type's own code gives it back. |
| Client.DeviceEqualityIsStructural | library/src/main/java/com/zhzc0x/bluetooth/client/Client.kt:52-57 | Two devices are equal exactly when address, name, type and bonded flag all agree. Equality is not by address alone. |
| Client.FilterByMask | library/src/main/java/com/zhzc0x/bluetooth/client/Client.kt:121-125 | A property is kept iff it is an entry and its mask test passes. An input in declaration order gives an output in declaration order. |
| Client.PropertyMasks | library/src/main/java/com/zhzc0x/bluetooth/client/Client.kt:113-124 | For each defined property, `(value and code) == code` holds iff its bit of the Characteristic Properties field is set. For UNKNOWN it holds iff the value is -1. |
| Client.GetProperties | library/src/main/java/com/zhzc0x/bluetooth/client/Client.kt:121-125 | A property is listed iff its mask test passes. The list is in declaration order without repeats. |
| Client.GetPropertiesSumsToValue | library/src/main/java/com/zhzc0x/bluetooth/client/Client.kt:113-125 | For a one-byte field, UNKNOWN is never listed and the listed codes add up to the field, so decoding loses nothing. |
| Client.GetPropertiesOfZero | library/src/main/java/com/zhzc0x/bluetooth/client/Client.kt:121-125 | A zero field lists no property. |
| Client.GetPropertiesOfMinusOne | library/src/main/java/com/zhzc0x/bluetooth/client/Client.kt:113-125 | A field of -1 lists every property, UNKNOWN included. |
| Client.GetPropertiesMonotone | library/src/main/java/com/zhzc0x/bluetooth/client/Client.kt:121-125 | When `(b and a) == a`, every property listed for `a` is also listed for `b`. |
| ByteArrayExt.ByteHex | app/src/main/java/com/zhzch0x/bluetooth/demo/ext/ByteArrayExt.kt:4 | Each byte, read unsigned, becomes exactly two lowercase digits: the high nibble, then the low nibble. |
| ByteArrayExt.ToHex | app/src/main/java/com/zhzch0x/bluetooth/demo/ext/ByteArrayExt.kt:4 | The output is twice as long as the input. |
| ByteArrayExt.ToHexAlphabet | app/src/main/java/com/zhzch0x/bluetooth/demo/ext/ByteArrayExt.kt:4 | Only `0`-`9` and `a`-`f` appear in the output. |
| ByteArrayExt.ToHexPair | app/src/main/java/com/zhzch0x/bluetooth/demo/ext/ByteArrayExt.kt:4 | Characters `2i` and `2i+1` render byte `i`. |
| ByteArrayExt.ToHexConcat | app/src/main/java/com/zhzch0x/bluetooth/demo/ext/ByteArrayExt.kt:4 | Rendering distributes over concatenation. |
| ByteArrayExt.FromHexToHex | app/src/main/java/com/zhzch0x/bluetooth/demo/ext/ByteArrayExt.kt:4 | Decoding the rendering gives the original bytes back. |
| ByteArrayExt.ToHexFromHex | app/src/main/java/com/zhzch0x/bluetooth/demo/ext/ByteArrayExt.kt:4 | Every decodable string is the rendering of its decoding, so the encoding is one-to-one onto even-length lowercase hex strings. |
| ByteArrayExt.ToHexExamples | app/src/main/java/com/zhzch0x/bluetooth/demo/ext/ByteArrayExt.kt:4 | -1 renders as `ff`, 0 as `00`, 10 as `0a`, and the empty array as the empty string. |
| BluetoothHelper.CheckMtuRange | library/src/main/java/com/zhzc0x/bluetooth/BluetoothHelper.kt:145-149 | An MTU is accepted iff 23 <= mtu <= 512. Otherwise the call throws `IllegalArgumentException`. |
| BluetoothHelper.RequiredPermissions | library/src/main/java/com/zhzc0x/bluetooth/BluetoothHelper.kt:47-53 | Below Android 12 the four legacy permissions, location included. From Android 12 on the two runtime Bluetooth permissions. No permission is listed twice. |
| BluetoothHelper.RequestPermissions | library/src/main/java/com/zhzc0x/bluetooth/BluetoothHelper.kt:139-143 | Issued exactly when `checkPermissions` with requesting on would issue it for a missing permission, whatever is granted. |
| BluetoothHelper.FirstMissing | library/src/main/java/com/zhzc0x/bluetooth/BluetoothHelper.kt:125-137 | Returns the first permission not granted, with every earlier one granted. Returns none iff all are granted. |
| BluetoothHelper.CheckPermissions | library/src/main/java/com/zhzc0x/bluetooth/BluetoothHelper.kt:125-143 | Reports granted iff every permission required for the SDK level is granted. A request goes out iff one is missing, a request was asked for, and the SDK is at least 23. |
| BluetoothHelper.CheckState | library/src/main/java/com/zhzc0x/bluetooth/BluetoothHelper.kt:73-91 | The priority cascade: no adapter gives NOT_SUPPORT, a missing permission gives NO_PERMISSIONS, otherwise ENABLE or DISABLE by adapter state. LOCATION_DISABLE never comes from here. Each iff is stated both ways. |
| BluetoothHelper.SwitchBluetooth | library/src/main/java/com/zhzc0x/bluetooth/BluetoothHelper.kt:94-112 | The adapter's enable()/disable() is called iff the SDK is below 33 and permissions pass (or are not checked). Its answer is then the result. Otherwise the result is false. |
| BluetoothHelper.CheckBluetoothValid | library/src/main/java/com/zhzc0x/bluetooth/BluetoothHelper.kt:55-71 | Valid iff the state is ENABLE and, below SDK 31, location is on. A DISABLE state asks the adapter to turn on iff the SDK is below 33. |
| BluetoothHelper.OnSwitchBroadcast | library/src/main/java/com/zhzc0x/bluetooth/BluetoothHelper.kt:25-46 | Only `ACTION_STATE_CHANGED` with STATE_ON (12) signals "turned on". Only STATE_TURNING_OFF (13) signals "turning off". |
| Handler.PostKeepsOrder | library/src/main/java/com/zhzc0x/bluetooth/BluetoothClient.kt:205-206 | Posting appends: the oldest task stays first, and what follows it is the rest with the new task at the end (FIFO). |
| BluetoothClient.DisconnectDropsPendingTasks | library/src/main/java/com/zhzc0x/bluetooth/BluetoothClient.kt:357-363 | A task posted before `disconnect()` never runs after it. Posting it first leaves no trace in the disconnected state. Any later run of handler turns and delays coming due, however long, leaves that state unchanged. |
| RetryPolicy.DecideReconnect | library/src/main/java/com/zhzc0x/bluetooth/BluetoothClient.kt:187-203 | Reconnect iff the budget is positive and the counter is below it. Give up iff the budget is positive and spent. Forward otherwise. |
| RetryPolicy.CheckReconnect | library/src/main/java/com/zhzc0x/bluetooth/BluetoothClient.kt:186-202 | A positive budget with the counter below it posts RECONNECT, reissues the connect and raises the counter by one. A spent positive budget posts the failure and disconnects. No budget only posts the failure. |
| RetryPolicy.OnConnectState | library/src/main/java/com/zhzc0x/bluetooth/BluetoothClient.kt:168-183 | A failure report goes through the reconnect check. Any other report is posted as it is, and CONNECTED also resets the counter and the flag. Every report posts exactly one state, first, and at most one more effect follows. |
| RetryPolicy.NoBudgetForwards | library/src/main/java/com/zhzc0x/bluetooth/BluetoothClient.kt:200-202 | With a budget of zero or less, a failure is posted as it is and nothing else happens. |
| RetryPolicy.DrivenDisconnectForwards | library/src/main/java/com/zhzc0x/bluetooth/BluetoothClient.kt:171-182 | A DISCONNECTED the user drove is forwarded and never reconnects. |
| RetryPolicy.OnlyConnectedResets | library/src/main/java/com/zhzc0x/bluetooth/BluetoothClient.kt:169-183 | Only CONNECTED lowers the counter or clears the flag, and it resets both. |
| RetryPolicy.ExhaustedCounterGivesUp | library/src/main/java/com/zhzc0x/bluetooth/BluetoothClient.kt:195-199 | With a spent counter, the first failure posts the failure and disconnects, with no RECONNECT. |
| RetryPolicy.FailingRunExhausts | library/src/main/java/com/zhzc0x/bluetooth/BluetoothClient.kt:187-203 | From counter `c` against budget `max`: `max - c` RECONNECT posts and reissued connects, then the failure and one disconnect. |
| RetryPolicy.AlwaysFailingDriver | library/src/main/java/com/zhzc0x/bluetooth/BluetoothClient.kt:187-203 | With a budget N > 0 and a fresh counter: exactly N RECONNECTs and N reconnects, then the failure is posted once and the client disconnects. |
| RetryPolicy.DecideRetry | library/src/main/java/com/zhzc0x/bluetooth/BluetoothClient.kt:296-309 | Retry iff the budget is positive and the attempt number is below it. The next attempt is numbered one higher. |
| RetryPolicy.AlwaysFailingRetries | library/src/main/java/com/zhzc0x/bluetooth/BluetoothClient.kt:278-309 | Against a driver that always fails: R + 1 attempts when R > 0, one attempt otherwise, then a single failure. |
| RetryPolicy.FirstSuccessStops | library/src/main/java/com/zhzc0x/bluetooth/BluetoothClient.kt:283-309 | The first success within the budget ends the run with success after exactly that many attempts. |
| RetryPolicy.RetriesBounded | library/src/main/java/com/zhzc0x/bluetooth/BluetoothClient.kt:283-309 | Whatever the driver answers, a run never makes more than Budget + 1 attempts, and every attempt before the last failed. A finished run succeeds iff its last answer was a success, and a failed run used the whole budget. A run still waiting has one attempt more than answers. |
| BluetoothClient.CheckValid | library/src/main/java/com/zhzc0x/bluetooth/BluetoothClient.kt:68-93 | Usable iff the adapter is present, every permission is granted and the adapter is on. Missing permissions post a permission request. A disabled adapter posts `switch(true)`. |
| BluetoothClient.Switch | library/src/main/java/com/zhzc0x/bluetooth/BluetoothClient.kt:105-112 | False without an adapter. True only below SDK 33 with every permission granted and the adapter agreeing. The adapter is asked iff it is present, the SDK is below 33 and every permission is granted. |
| BluetoothClient.StartScan | library/src/main/java/com/zhzc0x/bluetooth/BluetoothClient.kt:124-138 | Refused unless usable. Otherwise stores the end callback, starts the driver's scan, and posts a delayed stop iff a positive time was given. |
| BluetoothClient.StopScan | library/src/main/java/com/zhzc0x/bluetooth/BluetoothClient.kt:144-151 | Acts only while an end callback is set: stops the driver, runs the callback once and forgets it. |
| BluetoothClient.StopScanIdempotent | library/src/main/java/com/zhzc0x/bluetooth/BluetoothClient.kt:144-151 | A second stop changes nothing. |
| BluetoothClient.Connect | library/src/main/java/com/zhzc0x/bluetooth/BluetoothClient.kt:163-185 | Refused unless usable. Otherwise it only posts the connect task: the counter, the flag, the driver calls and the outputs stay as they were. |
| BluetoothClient.OnStateReport | library/src/main/java/com/zhzc0x/bluetooth/BluetoothClient.kt:168-205 | Without a connect nothing happens. A report that is not a failure is only posted to the handler, never delivered directly, and only CONNECTED resets the policy. |
| BluetoothClient.RunTask | library/src/main/java/com/zhzc0x/bluetooth/BluetoothClient.kt:283-336 | Running a posted closure never touches the reconnect policy. A send or read closure makes exactly one driver call with the request's arguments and hands the driver a fresh closure for that attempt. A delivery adds exactly one output and calls nothing. |
| BluetoothClient.SendData | library/src/main/java/com/zhzc0x/bluetooth/BluetoothClient.kt:278-285 | Only the handler changes: the first attempt, numbered 0, goes to the end of the ready queue, so the driver hears nothing until the handler runs it. |
| BluetoothClient.ReadData | library/src/main/java/com/zhzc0x/bluetooth/BluetoothClient.kt:321-327 | The same for reads. |
| BluetoothClient.Disconnect | library/src/main/java/com/zhzc0x/bluetooth/BluetoothClient.kt:357-363 | Ends the scan, raises the user-disconnect flag, drops every pending task, then disconnects the driver. |
| BluetoothClient.Release | library/src/main/java/com/zhzc0x/bluetooth/BluetoothClient.kt:368-372 | Disconnects, unregisters the switch receiver, then releases the driver. |
| BluetoothClient.ChangeMtu | library/src/main/java/com/zhzc0x/bluetooth/BluetoothClient.kt:216-225 | An out-of-range MTU throws before the driver is asked. Otherwise the driver's answer is returned. |
| BluetoothClient.ReceiveData | library/src/main/java/com/zhzc0x/bluetooth/BluetoothClient.kt:261-265 | Hands the driver a posting closure and returns the driver's answer unchanged. |
| BluetoothClient.OnSendAnswer | library/src/main/java/com/zhzc0x/bluetooth/BluetoothClient.kt:283-309 | Success is reported at once. A failure posts the next attempt while the budget lasts and is reported once the budget is spent. |
| BluetoothClient.OnReadAnswer | library/src/main/java/com/zhzc0x/bluetooth/BluetoothClient.kt:326-352 | As for sends. A final failure carries no value. A success with data reaches the caller with that data; a success without data throws instead, and the caller hears nothing. |
| BluetoothClient.OneReconnectRound | library/src/main/java/com/zhzc0x/bluetooth/BluetoothClient.kt:168-206 | A failure with budget left delivers RECONNECT, raises the counter by one, and reissues the connect with the same arguments. |
| BluetoothClient.GiveUpDropsFailure | library/src/main/java/com/zhzc0x/bluetooth/BluetoothClient.kt:187-203 | With the budget spent, a failure report does exactly what `disconnect()` does. The failure posted just before is cleared, so the application never sees it. |
| BluetoothClient.ReconnectRoundsFrom | library/src/main/java/com/zhzc0x/bluetooth/BluetoothClient.kt:168-206 | `k` failing rounds within the budget deliver `k` RECONNECTs and make `k` more driver connects. |
| BluetoothClient.ReconnectExhaustion | library/src/main/java/com/zhzc0x/bluetooth/BluetoothClient.kt:163-206 | With budget N > 0 against a failing driver: N RECONNECTs and N reconnects, then the client disconnects without delivering the last failure. |
| BluetoothClient.ReconnectWhileUnusable | library/src/main/java/com/zhzc0x/bluetooth/BluetoothClient.kt:163-194 | A reconnect while the adapter is unusable spends budget and delivers RECONNECT, but no connect reaches the driver. |
| BluetoothClient.UserDisconnectDelivered | library/src/main/java/com/zhzc0x/bluetooth/BluetoothClient.kt:171-182 | A DISCONNECTED after a user `disconnect()` is delivered as it is. |
| BluetoothClient.ConnectedResets | library/src/main/java/com/zhzc0x/bluetooth/BluetoothClient.kt:176-179 | CONNECTED resets the counter and the flag, and is delivered. |
| BluetoothClient.SpentBudgetCarriesOver | library/src/main/java/com/zhzc0x/bluetooth/BluetoothClient.kt:163-203 | The counter is not reset by a new `connect`. A spent budget makes the next connection's first failure disconnect at once. |
| BluetoothClient.OnlyConnectedResetsPolicy | library/src/main/java/com/zhzc0x/bluetooth/BluetoothClient.kt:168-203 | Over any event, only a CONNECTED report lowers the counter or clears the flag. The counter never rises by more than one per event. |
| BluetoothClient.EndOfScanAtMostOnce | library/src/main/java/com/zhzc0x/bluetooth/BluetoothClient.kt:124-151 | Between two `startScan` calls the end-of-scan callback runs at most once, whatever timers, disconnects and broadcasts do. |
| BluetoothClient.EarlierTimerEndsLaterScan | library/src/main/java/com/zhzc0x/bluetooth/BluetoothClient.kt:134-151 | A delayed stop left over from an earlier scan ends a later scan that asked for no time limit. |
| BluetoothClient.SendRoundsFollowPolicy | library/src/main/java/com/zhzc0x/bluetooth/BluetoothClient.kt:278-309 | When the retry run ends after `k` answers, the driver saw `k` identical sends and the caller got exactly one result: the run's. |
| BluetoothClient.AlwaysFailingSend | library/src/main/java/com/zhzc0x/bluetooth/BluetoothClient.kt:278-309 | Against an always-failing driver: R + 1 sends (one when R <= 0), then one failure callback. |
| BluetoothClient.ReadRoundsFollowPolicy | library/src/main/java/com/zhzc0x/bluetooth/BluetoothClient.kt:321-352 | When the retry run ends after `k` answers, the driver saw `k` identical reads and the caller got one result, with the value only on success. |
| BluetoothClient.AlwaysFailingRead | library/src/main/java/com/zhzc0x/bluetooth/BluetoothClient.kt:321-352 | Against an always-failing driver: R + 1 reads (one when R <= 0), then one failure without a value. |
| BluetoothClient.SecondAnswerRepeatsCallback | library/src/main/java/com/zhzc0x/bluetooth/BluetoothClient.kt:283-294 | The facade does not guard its send closure: a driver answering twice makes the caller's callback run twice. |
| BluetoothClient.TurningOffDisconnects | library/src/main/java/com/zhzc0x/bluetooth/BluetoothClient.kt:53-58 | The adapter turning off disconnects the client before the application's turn-off callback runs. |
| BluetoothClient.OnSwitch | library/src/main/java/com/zhzc0x/bluetooth/BluetoothClient.kt:53-58 | Without the receiver, or for an unrelated broadcast, nothing happens. Turning off disconnects: no pending task is left and the user-disconnect flag is raised. The turn-on callback runs iff the adapter turned on and listeners are set. |
| BleClient.Init | library/src/main/java/com/zhzc0x/bluetooth/client/BleClient.kt:34-38 | The write type starts at WRITE_TYPE_DEFAULT (2) from SDK 33 on and at -1 (unset) below it. |
| BleClient.OnScanResult | library/src/main/java/com/zhzc0x/bluetooth/client/BleClient.kt:50-58 | A result without a name, or with an empty one, is dropped. Otherwise the device is reported with its type looked up. |
| BleClient.StartScan | library/src/main/java/com/zhzc0x/bluetooth/client/BleClient.kt:60-64 | One LE scan request, and nothing else: no device is reported until the scanner calls back. |
| BleClient.StopScan | library/src/main/java/com/zhzc0x/bluetooth/client/BleClient.kt:66-70 | One request to stop the LE scan when the adapter and its LE scanner exist, no call at all when either is missing (the scanner is null while LE is off), and nothing else changes. |
| BleClient.CallConnectState | library/src/main/java/com/zhzc0x/bluetooth/client/BleClient.kt:192-198 | Always disarms the timeout. The handle is closed iff the state is TIMEOUT or ERROR and a handle exists. The state is then reported. |
| BleClient.Connect | library/src/main/java/com/zhzc0x/bluetooth/client/BleClient.kt:166-190 | Reports CONNECTING, arms the connect timeout, closes any previous handle and opens a new one. |
| BleClient.ChangeMtu | library/src/main/java/com/zhzc0x/bluetooth/client/BleClient.kt:200-205 | Stores the MTU. Returns true iff a handle exists and the stack accepts the request. |
| BleClient.DiscoverServices | library/src/main/java/com/zhzc0x/bluetooth/client/BleClient.kt:159-164 | A rejected discovery request is a CONNECT_ERROR. |
| BleClient.OnLinkUp | library/src/main/java/com/zhzc0x/bluetooth/client/BleClient.kt:74-82 | With an MTU and an accepted request, discovery waits and nothing is reported. Otherwise discovery is requested at once, after an MTU request iff an MTU was given. The exact native calls and outputs are stated for both branches. |
| BleClient.OnMtuChanged | library/src/main/java/com/zhzc0x/bluetooth/client/BleClient.kt:151-156 | Starts discovery only if it has not already completed. |
| BleClient.OnServicesDiscovered | library/src/main/java/com/zhzc0x/bluetooth/client/BleClient.kt:89-107 | Reports CONNECTED iff discovery succeeded and either no service UUID is set or the handle has it. Otherwise reports CONNECT_ERROR and closes the handle. |
| BleClient.GetGattService | library/src/main/java/com/zhzc0x/bluetooth/client/BleClient.kt:225-240 | Found iff there is a handle, a service UUID, and a service with that UUID. The service found has that UUID. |
| BleClient.AssignService | library/src/main/java/com/zhzc0x/bluetooth/client/BleClient.kt:221-223 | Only the service UUID changes. From then on the service lookup succeeds iff the handle lists a service with that UUID, and returns one with that UUID. |
| BleClient.GetGattServiceReturnsFirst | library/src/main/java/com/zhzc0x/bluetooth/client/BleClient.kt:225-240 | Of several services with the assigned UUID, the first one the handle lists is returned. |
| BleClient.FindFirstReturnsFirst | library/src/main/java/com/zhzc0x/bluetooth/client/BleClient.kt:234 | The UUID search returns the earliest element with that UUID: every element before it has another UUID. |
| BleClient.SupportedServices | library/src/main/java/com/zhzc0x/bluetooth/client/BleClient.kt:207-219 | Null without a handle. Otherwise one entry per service, with properties decoded by `getProperties`. Included services are listed one level deep, with null inclusions. |
| BleClient.ReceiveData | library/src/main/java/com/zhzc0x/bluetooth/client/BleClient.kt:242-263 | False without a service. Otherwise the closure is registered before the characteristic lookup. The result is true iff the characteristic exists and notification is enabled. |
| BleClient.CallSendDataResult | library/src/main/java/com/zhzc0x/bluetooth/client/BleClient.kt:304-307 | Disarms the timeout, whichever operation armed it. The entry registered under the array object, found by identity and not by contents, is removed, and only then called, exactly once. |
| BleClient.CallReadDataResult | library/src/main/java/com/zhzc0x/bluetooth/client/BleClient.kt:332-335 | The same for reads, keyed by UUID. |
| BleClient.SendData | library/src/main/java/com/zhzc0x/bluetooth/client/BleClient.kt:265-302 | Without a service the callback hears false at once. A write accepted below SDK 33 waits, registered under the array's identity, with its timer armed. Every other case completes at once: with the synchronous status from SDK 33 on, otherwise with false. |
| BleClient.StartWrite | library/src/main/java/com/zhzc0x/bluetooth/client/BleClient.kt:276-301 | A write accepted below SDK 33 stays pending with its timer armed. Every other case removes the entry, disarms the timer and answers once: true only for an accepted write from SDK 33 on. |
| BleClient.ReadData | library/src/main/java/com/zhzc0x/bluetooth/client/BleClient.kt:309-330 | A read accepted by the stack waits with its timer armed. Otherwise it fails at once with no value. |
| BleClient.StartRead | library/src/main/java/com/zhzc0x/bluetooth/client/BleClient.kt:320-329 | A read the stack accepts stays pending with its timer armed. A missing characteristic or a refused read removes the entry, disarms the timer and answers false with no value. |
| BleClient.Disconnect | library/src/main/java/com/zhzc0x/bluetooth/client/BleClient.kt:352-360 | Does nothing without a handle. Otherwise it drops the handle and the receive and write tables (not the read table) and reports DISCONNECTED. |
| BleClient.Release | library/src/main/java/com/zhzc0x/bluetooth/client/BleClient.kt:369-372 | Disconnects, keeping the pending reads, then cancels the timer for good as the last native call. |
| BleClient.OnCharacteristicWrite | library/src/main/java/com/zhzc0x/bluetooth/client/BleClient.kt:122-133 | Below SDK 33, completes the write registered under the array object the stack hands back, whatever its contents are by then. From SDK 33 on, does nothing. |
| BleClient.OnCharacteristicChanged | library/src/main/java/com/zhzc0x/bluetooth/client/BleClient.kt:110-120 | A notification reaches the closure registered for its UUID, if there is one. |
| BleClient.OnTimer | library/src/main/java/com/zhzc0x/bluetooth/client/BleClient.kt:337-345 | The armed task reports CONNECT_TIMEOUT, or fails its write or read. The slot is empty afterwards. |
| BleClient.StepKeeps | library/src/main/java/com/zhzc0x/bluetooth/client/BleClient.kt:265-335 | Every event keeps the ledger: pending entries hold distinct fresh callbacks that have heard nothing, and no callback has heard twice. |
| BleClient.EachCallbackAnsweredAtMostOnce | library/src/main/java/com/zhzc0x/bluetooth/client/BleClient.kt:304-335 | Over any run of events, each write or read callback is answered at most once, and only callbacks actually handed over are answered. |
| BleClient.HandshakeWithMtu | library/src/main/java/com/zhzc0x/bluetooth/client/BleClient.kt:74-156 | Connect, link up, MTU changed, discovery: one MTU request, then one discovery request, then CONNECTED or CONNECT_ERROR by the service check. A late `onMtuChanged` changes nothing. |
| BleClient.HandshakeWithoutMtuWait | library/src/main/java/com/zhzc0x/bluetooth/client/BleClient.kt:74-82 | Without an MTU, or when the MTU request is refused, discovery starts as soon as the link is up. |
| BleClient.ConnectTimesOut | library/src/main/java/com/zhzc0x/bluetooth/client/BleClient.kt:166-198 | The connect timeout is reported after CONNECTING and closes the handle. The stack's callbacks no longer reach the driver. |
| BleClient.WriteTimerBeatsCallback | library/src/main/java/com/zhzc0x/bluetooth/client/BleClient.kt:271-307 | If the timer fires first, the callback hears false once, and a late write callback carrying that same array object calls nothing. |
| BleClient.WriteCallbackBeatsTimer | library/src/main/java/com/zhzc0x/bluetooth/client/BleClient.kt:122-133 | If the stack hands back the written array object first, even refilled with other contents, the callback hears that answer once and the timer is disarmed. |
| BleClient.ForeignArrayStrandsWrite | library/src/main/java/com/zhzc0x/bluetooth/client/BleClient.kt:122-133 | A write callback carrying a different array object, even one with equal contents, calls nothing, yet cancels the timer, so the pending write can no longer complete. |
| BleClient.ModernWriteDecidedAtOnce | library/src/main/java/com/zhzc0x/bluetooth/client/BleClient.kt:289-296 | From SDK 33 on, the synchronous status is reported at once, the entry is gone, and the later write callback is ignored. |
| BleClient.ResentArrayOrphansFirstCallback | library/src/main/java/com/zhzc0x/bluetooth/client/BleClient.kt:271-307 | Sending the same array object again while it is pending, with any contents, replaces the first callback. The stack's answer then goes to the second callback, and the first never hears a result. |
| BleClient.DisconnectStrandsPendingRead | library/src/main/java/com/zhzc0x/bluetooth/client/BleClient.kt:352-360 | `disconnect` keeps pending reads but cancels their timer. Neither the timer nor the stack can complete them afterwards. |
| BleClient.DisconnectIdempotent | library/src/main/java/com/zhzc0x/bluetooth/client/BleClient.kt:352-360 | Disconnecting twice is the same as once, and DISCONNECTED is reported once. |
| BleClient.ReceiveRegistersFirst | library/src/main/java/com/zhzc0x/bluetooth/client/BleClient.kt:242-249 | Even when `receiveData` answers false for a missing characteristic, later notifications for that UUID reach the closure. |
| ClassicClient.StartScan | library/src/main/java/com/zhzc0x/bluetooth/client/ClassicClient.kt:79-88 | Registers the receiver and starts discovery. Then, in order, each bonded device gets an SDP fetch and is reported, up to the first device whose UUID array is null. The call completes iff no bonded device has a null array. |
| ClassicClient.ReportedCount | library/src/main/java/com/zhzc0x/bluetooth/client/ClassicClient.kt:83-84 | The count of devices reported is the longest prefix of devices with a UUID array: the device just past it has none. |
| ClassicClient.ReportBonded | library/src/main/java/com/zhzc0x/bluetooth/client/ClassicClient.kt:83-86 | Exactly the devices of that prefix get one SDP fetch and one report each, in order, and nothing else in the state changes. |
| ClassicClient.ToDevice | library/src/main/java/com/zhzc0x/bluetooth/client/ClassicClient.kt:85 | The reported device keeps the address and name and has its type looked up from the platform code. |
| ClassicClient.StopScan | library/src/main/java/com/zhzc0x/bluetooth/client/ClassicClient.kt:90-94 | Cancels discovery only while it runs. |
| ClassicClient.RegisterReceiver | library/src/main/java/com/zhzc0x/bluetooth/client/ClassicClient.kt:96-107 | Registers only when not already registered. |
| ClassicClient.CreateSocket | library/src/main/java/com/zhzc0x/bluetooth/client/ClassicClient.kt:165-175 | True iff creating and connecting both succeed. A failed connect still leaves the new socket in place. A failed create leaves the old socket, now closed. |
| ClassicClient.ConnectRemote | library/src/main/java/com/zhzc0x/bluetooth/client/ClassicClient.kt:146-163 | An unbonded device only gets a bond request. Otherwise the device is stored, the verdict is reported (CONNECTED without a service UUID, else by the socket), and the timeout is disarmed. If the timer fired while the socket connect blocked, its report comes before the verdict. |
| ClassicClient.Connect | library/src/main/java/com/zhzc0x/bluetooth/client/ClassicClient.kt:109-117 | CONNECTING and an armed timeout come before any bonding or socket work. A bonded device ends with one verdict, preceded by CONNECT_TIMEOUT iff the timer fired during the socket connect. |
| ClassicClient.TimeoutDuringSocketConnectReportsTwice | library/src/main/java/com/zhzc0x/bluetooth/client/ClassicClient.kt:109-175 | When the timer fires during the blocking socket connect, the caller hears CONNECTING, CONNECT_TIMEOUT and then the socket's verdict, and no timeout is left to fire. |
| ClassicClient.SupportedServices | library/src/main/java/com/zhzc0x/bluetooth/client/ClassicClient.kt:119-121 | Null without a device or UUIDs. Otherwise one UNKNOWN-type service per advertised UUID, with null lists. |
| ClassicClient.AssignService | library/src/main/java/com/zhzc0x/bluetooth/client/ClassicClient.kt:123-128 | Stores the UUID and, with a known device, opens a new socket for it at once. |
| ClassicClient.BufferSize | library/src/main/java/com/zhzc0x/bluetooth/client/ClassicClient.kt:199 | The buffer holds `mtu` bytes when mtu > 0, else 102. |
| ClassicClient.ReceiveRunFacts | library/src/main/java/com/zhzc0x/bluetooth/client/ClassicClient.kt:197-213 | The failure count is cumulative, with no reset on success. The loop stops on the socket going down, the end of the stream, or the third failure. Every chunk before that is delivered in order. CONNECT_ERROR follows iff the budget is spent. |
| ClassicClient.InterleavedFailuresSpendTheBudget | library/src/main/java/com/zhzc0x/bluetooth/client/ClassicClient.kt:198-212 | Failures separated by successful reads still end the loop at the third one. |
| ClassicClient.ReceiveLoop | library/src/main/java/com/zhzc0x/bluetooth/client/ClassicClient.kt:197-213 | The loop as written computes the reference run: a bounded failure count, budget spent iff three failures, and the chunks of the answers it consumed. |
| ClassicClient.ReceiveData | library/src/main/java/com/zhzc0x/bluetooth/client/ClassicClient.kt:193-215 | True iff the client is valid, with no I/O otherwise. Each chunk of the run reaches the closure, followed by CONNECT_ERROR iff the budget was spent. |
| ClassicClient.StartSend | library/src/main/java/com/zhzc0x/bluetooth/client/ClassicClient.kt:217-227 | An invalid client answers false at once. Otherwise the write timer is armed and the write starts. |
| ClassicClient.FinishSend | library/src/main/java/com/zhzc0x/bluetooth/client/ClassicClient.kt:226-233 | The write's outcome reaches the callback and the timeout slot is cleared. |
| ClassicClient.Disconnect | library/src/main/java/com/zhzc0x/bluetooth/client/ClassicClient.kt:236-244 | Does nothing without a socket. Otherwise it closes and drops the socket and the device, disarms the timeout and reports DISCONNECTED. |
| ClassicClient.Release | library/src/main/java/com/zhzc0x/bluetooth/client/ClassicClient.kt:252-259 | Disconnects and unregisters the receiver iff it is registered. |
| ClassicClient.OnBondStateChanged | library/src/main/java/com/zhzc0x/bluetooth/client/ClassicClient.kt:57-74 | BOND_BONDED with a device in the intent re-enters the private connect for that device, whichever device it is. Anything else does nothing. |
| ClassicClient.OnTimer | library/src/main/java/com/zhzc0x/bluetooth/client/ClassicClient.kt:130-139 | The task clears the slot first, then reports CONNECT_TIMEOUT or fails the write. |
| ClassicClient.ReceiverRegisteredAtMostOnceAtATime | library/src/main/java/com/zhzc0x/bluetooth/client/ClassicClient.kt:96-107 | Over any run, registrations and unregistrations alternate, starting with a registration, so the receiver is never registered twice or unregistered while not registered. |
| ClassicClient.BondingGatesConnect | library/src/main/java/com/zhzc0x/bluetooth/client/ClassicClient.kt:146-163 | An unbonded device gets a bond request with the timeout armed. If the receiver is registered, the BOND_BONDED broadcast finishes the connect. If not, only the timeout is left. |
| ClassicClient.WriteFirstAnswersOnce | library/src/main/java/com/zhzc0x/bluetooth/client/ClassicClient.kt:222-233 | A write that finishes before the timer answers once, and the timer no longer fires for it. |
| ClassicClient.TimerFirstAnswersTwice | library/src/main/java/com/zhzc0x/bluetooth/client/ClassicClient.kt:222-233 | If the timer fires while the write blocks, the callback hears false and then the write's own outcome. |
| ClassicClient.InvalidClientDoesNoIo | library/src/main/java/com/zhzc0x/bluetooth/client/ClassicClient.kt:177-221 | Without device, service UUID and socket, neither send nor receive touches the socket. |
| ClassicClient.DisconnectIdempotent | library/src/main/java/com/zhzc0x/bluetooth/client/ClassicClient.kt:236-244 | Disconnecting twice is the same as once, and DISCONNECTED is reported once. |

## Left out

- Android itself: the adapter, the scanners, the GATT stack, sockets, `Timer`, `HandlerThread`, broadcast delivery and permission dialogs. Their answers are parameters or events, so every interleaving of those events is covered, but no timing is.
- Real time: timeouts and `postDelayed` delays are events that fire "later". The model does no clock arithmetic, so which of two timers fires first is left to the event order.
- Concurrency within one call. Each driver callback runs as one atomic event. In particular, the facade's handler cannot run between posting the final failure and `disconnect()` (BluetoothClient.kt:197-198), so that failure is always cleared before delivery. On a real device the handler could occasionally deliver it first.
- ClassicClient.ReceiveData: the reader thread's reads are taken as one run inside `receiveData`, not interleaved with other events. Each read answer is taken as the chunk `read` returned, without stating that it fits the buffer.
- BleClient.ReceiveData: the UUID arguments of the BLE `receiveData`, `sendData` and `readData` are non-null in the model. The source dereferences them with `!!` (or passes them to `getCharacteristic`), which throws on null.
- Logging (`Timber`), toasts, the location-settings activity started by `checkState`, and Kotlin coroutines (`CoroutineClient.kt`), which is not part of this model.
- The demo app's UI. Only `toHex` is modelled.
- `release` cancels each driver's `Timer` for good (recorded as a native call). A later operation that schedules a timeout would then throw `IllegalStateException`; the model does not enforce this.
- A second facade `release` unregisters the switch receiver again, which Android rejects. The facade's switch receiver registration is not tracked.
- `supportedServices`, `assignService` and `setWriteType` on the facade pass straight through to the driver and are modelled on the drivers.
- Places where the source as written does not compile are modelled as evidently meant, with a comment at each:
  - The Classic `sendData` takes a `ResultCallback` and calls it with one argument, while the interface wants a two-argument `DataResultCallback`; the model reports one boolean per answer.
  - The Classic driver has no `readData` and no `writeType`, both of which the interface requires; the model leaves them out.
  - Both drivers build `Device` with three arguments, while the data class takes four, and they call the private `Device.typeOf`; the model uses `bonded = false` and the lookup.
  - `checkState` returns `ClientState.UNSUPPORTED`, which the enum does not declare (it has `NOT_SUPPORT`); the model reads it as `NOT_SUPPORT`.
- A BOND_BONDED broadcast arriving before any `connect` would throw from the uninitialised `connectStateCallback`. The model reports the state anyway.
- ClassicClient.StartScan: the exception a null UUID array throws is the call's second result. Its propagation to the caller of `startScan` is not modelled. `fetchUuidsWithSdp` is recorded as a native call; its answer arrives as an ACTION_UUID broadcast, which the receiver does not listen for.
- BluetoothClient.OnReadAnswer: the exception thrown for a success without data is recorded as an output. What the driver's thread then does with it is not modelled; on Android this usually ends the process.
- ClassicClient.ConnectRemote: the timer is taken to fire only while the socket's `connect()` blocks. It could also fire in the short windows elsewhere in the call, for instance between the verdict and `cancelTimeoutTask`. That gives the same two reports with the verdict first, and the model does not cover it.
- BleClient.StartScan: the LE scanner is taken to exist. `bluetoothLeScanner!!` throws while the adapter is off, but the facade's usability check rules that out before it reaches the driver.
- BleClient.Connect: the model has no timeout value, so it always arms the timer and goes on to connect. In the source, a negative `timeoutMillis` makes `Timer.schedule` throw `IllegalArgumentException` right after CONNECTING is reported and before any GATT work (BleClient.kt:169-170, 344). The facade passes the caller's value through unchecked.
- BleClient.SendData: a negative `timeoutMillis` throws from `Timer.schedule` after the callback has been registered under the array (BleClient.kt:271-272, 344). No write is issued, and the entry stays in the table with no timer. The model always arms the timer and writes.
- BleClient.ReadData: a negative `timeoutMillis` throws from `Timer.schedule` after the callback has been registered under the UUID (BleClient.kt:315-316, 344). No read is issued, and the entry stays in the table with no timer. The model always arms the timer and reads.
- ClassicClient.Connect: a negative `timeoutMillis` throws from `Timer.schedule` right after CONNECTING is reported, before the remote device is looked up (ClassicClient.kt:112-113, 138). The model always arms the timer and connects.
- ClassicClient.StartSend: a negative `timeoutMillis` throws from `Timer.schedule` before the write (ClassicClient.kt:222, 138), so the callback never hears a result. The model always arms the timer and writes.
- BleClient.OnTimer: the array in a timed-out write's result holds the contents it had when it was sent. Kotlin hands back the object itself, so a refill after sending would show there. Only the identity decides which callback is called, and that part is exact.
