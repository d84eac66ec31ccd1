# BLE Explorer core, modelled in Dafny

BLE Explorer is an Android app. It scans for Bluetooth Low Energy devices,
lists them, connects to a chosen one, and browses its GATT services and
characteristics. This project models three pieces of its logic and proves
properties of them:

- **`GattAttributes.dfy`**: UUID naming.
  - `Lookup` looks up a UUID case-insensitively in the fixed name table.
  - Otherwise it builds a name from the 16-bit alias in characters 4..8. The
    separator is `" "` when the UUID is built on the Bluetooth Base UUID
    `00000000-0000-1000-8000-00805F9B34FB` (Bluetooth Core Specification,
    Vol 3, Part B, section 2.5.1), and `" *"` when it is not.
  - Java's `toLowerCase` and `regionMatches(true, …)` are modelled, bounds
    check included.
- **`DeviceScan.dfy`**: the scan screen.
  - The device list (`LeDeviceListAdapter`) is duplicate-free by address and
    keeps first sightings in order. Results arrive one at a time or in a
    batch loop.
  - The scan controller of `DeviceScanActivity` has the `mScanning` flag, the
    `mAllPermissionsAsked` latch and the timeout callbacks queued in the
    `Handler`.
  - Also modelled: the permission rule `isAllPermissionsGranted` and the
    names `onScanFailed` gives to failure codes.
  - Calls to the platform scanner are appended to a ghost request log.
  - Permission queries and the API level are boolean inputs.
- **`DeviceControl.dfy`**: the device screen.
  - The `mConnected` flag is driven by the four broadcast kinds.
  - The characteristic lists are rebuilt from discovered services.
  - Calls into `BluetoothLeService` are appended to a ghost request log. The
    set of characteristics with notification enabled is read off that log
    (`EnabledBy`).
  - The main theorem: along any sequence of clicks, broadcasts and menu
    selections, at no point are two characteristics enabled at once.
  - The source's property tests `(p | PROPERTY_READ) > 0` and
    `(p | PROPERTY_NOTIFY) > 0` are modelled on 32-bit two's complement
    values. They hold exactly for non-negative `p`, so every characteristic
    is read and subscribed to, whatever its properties say (for any
    non-negative property value, which covers every flag Android defines).

**Structure.** Each stateful piece is a class whose fields mirror the Java
fields. Each method's `ensures` ties the new state to a pure step function on
a state datatype (`ScanState`, `ControlState`). Each step function carries
its own contract. Invariants are proved per step, and then along arbitrary
event traces (`RunScan`, `RunControl`). `Wrappers.dfy` holds `Option`, which
stands for Java's `null`.

**Behaviours of the code that a reader might not expect:**
- `onScanFailed` only logs. It does not clear `mScanning`.
- `addDevice` keeps the first sighting of an address. A later sighting with a
  new name does not update the entry.
- The property tests use `|`, so they pass whenever the value is non-negative.
- A `GATT_DISCONNECTED` broadcast clears the screen's widgets only. It leaves
  `mGattCharacteristics` and `mNotifyCharacteristic` as they were; the list
  is detached, so no click uses them until services are discovered again.

## Model

| member | source | states |
|---|---|---|
| GattAttributes.ToLower | app/src/main/java/net/kenevans/android/bleexplorer/GattAttributes.java:98 | lower-casing keeps the length and maps each character to its lower-case form |
| GattAttributes.CharsEqualIgnoringCaseIffSameLower | app/src/main/java/net/kenevans/android/bleexplorer/GattAttributes.java:101-102 | regionMatches' per-character test (equal, equal upper-cased, or equal lower-cased after upper-casing) holds iff the lower-case forms agree |
| GattAttributes.RegionMatchesIffSameLower | app/src/main/java/net/kenevans/android/bleexplorer/GattAttributes.java:101-102 | `regionMatches(true, soff, t, toff, len)` holds iff both regions lie inside their strings and agree once lower-cased |
| GattAttributes.CharsMatchFromIffSameLower | app/src/main/java/net/kenevans/android/bleexplorer/GattAttributes.java:101-102 | the in-bounds character-by-character comparison holds iff the two slices agree once lower-cased |
| GattAttributes.SameLowerCons | app/src/main/java/net/kenevans/android/bleexplorer/GattAttributes.java:101-102 | two equal-length non-empty strings agree once lower-cased iff their first characters and their tails do |
| GattAttributes.ToLowerAppend | app/src/main/java/net/kenevans/android/bleexplorer/GattAttributes.java:98 | lower-casing distributes over concatenation |
| GattAttributes.Lookup | app/src/main/java/net/kenevans/android/bleexplorer/GattAttributes.java:97-109 | requires only what keeps `substring(4, 8)` from throwing: a table hit or at least 8 characters. For an unknown UUID the name starts with `defaultName`, is 5 or 6 characters longer, and ends with the UUID's own characters 4..8 |
| GattAttributes.AliasUuid | app/src/main/java/net/kenevans/android/bleexplorer/GattAttributes.java:11-12 | expanding a 4-character alias gives a 36-character UUID equal to `BASE_UUID` outside characters 4..8, with the alias there |
| GattAttributes.BaseUuidIsLowerCase | app/src/main/java/net/kenevans/android/bleexplorer/GattAttributes.java:11-12 | the parts of `BASE_UUID` that `lookup` compares are already lower case |
| GattAttributes.MatchesBaseUuidIffSharesBase | app/src/main/java/net/kenevans/android/bleexplorer/GattAttributes.java:101-102 | the two region tests hold iff the UUID has at least 36 characters whose lower-case form is the expansion of its own alias |
| GattAttributes.MatchesBaseUuidIffParts | app/src/main/java/net/kenevans/android/bleexplorer/GattAttributes.java:101-102 | the two region tests hold iff the UUID has at least 36 characters and its characters 0..4 and 8..36 lower-case to those of `BASE_UUID` |
| GattAttributes.SharesBaseUuidIffParts | app/src/main/java/net/kenevans/android/bleexplorer/GattAttributes.java:11-12 | a UUID lower-cases to the expansion of its own alias iff it has at least 36 characters and its characters 0..4 and 8..36 lower-case to those of `BASE_UUID` |
| GattAttributes.LookupKnown | app/src/main/java/net/kenevans/android/bleexplorer/GattAttributes.java:98-99 | a table hit wins over both fallbacks, and every spelling that lower-cases to the same key gets the same name |
| GattAttributes.LookupUnknownOnBase | app/src/main/java/net/kenevans/android/bleexplorer/GattAttributes.java:101-103 | an unknown UUID built on the Base UUID yields `defaultName + " " + uuid[4..8]`, cut from the input in its own case |
| GattAttributes.LookupUnknownOffBase | app/src/main/java/net/kenevans/android/bleexplorer/GattAttributes.java:104-105 | any other unknown UUID of at least 8 characters yields `defaultName + " *" + uuid[4..8]` |
| GattAttributes.ShortUnknownIsStarred | app/src/main/java/net/kenevans/android/bleexplorer/GattAttributes.java:101-105 | an unknown UUID of 8 to 35 characters always takes the `" *"` branch, because the region test fails past the end |
| GattAttributes.AliasRoundTrip | app/src/main/java/net/kenevans/android/bleexplorer/GattAttributes.java:101-103 | looking up the expansion of an alias that is not in the table gives `defaultName + " " + alias` back |
| GattAttributes.HeartRateUpperCaseLowers | app/src/main/java/net/kenevans/android/bleexplorer/GattAttributes.java:98 | the upper-case spelling of the Heart Rate service UUID lower-cases to the table key |
| GattAttributes.HeartRateServiceExample | app/src/main/java/net/kenevans/android/bleexplorer/GattAttributes.java:34-35 | `"0000180D-0000-1000-8000-00805F9B34FB"` is a table hit and is named "Heart Rate Service" |
| DeviceScan.WithDevice | app/src/main/java/net/kenevans/android/bleexplorer/DeviceScanActivity.java:400-404 | after `addDevice` the address is listed; the list is unchanged iff the address was already listed, and otherwise has the device appended; a duplicate-free list stays duplicate-free |
| DeviceScan.AddAll | app/src/main/java/net/kenevans/android/bleexplorer/DeviceScanActivity.java:485-501 | adding a batch keeps the old list as a prefix, adds at most one entry per result, and keeps the list duplicate-free |
| DeviceScan.AddAllSnoc | app/src/main/java/net/kenevans/android/bleexplorer/DeviceScanActivity.java:485-501 | one more result in a batch is one more `addDevice` after the rest |
| DeviceScan.SightedTail | app/src/main/java/net/kenevans/android/bleexplorer/DeviceScanActivity.java:401 | an address sighted in a list but not at its head is sighted in its tail |
| DeviceScan.FirstIndex | app/src/main/java/net/kenevans/android/bleexplorer/DeviceScanActivity.java:401 | the first position of a sighted address holds it, and no earlier position does |
| DeviceScan.FirstIndexAppend | app/src/main/java/net/kenevans/android/bleexplorer/DeviceScanActivity.java:400-404 | a later sighting does not move an address's first sighting |
| DeviceScan.FirstIndexOfNew | app/src/main/java/net/kenevans/android/bleexplorer/DeviceScanActivity.java:400-404 | the first sighting of a new address is at the end |
| DeviceScan.FirstIndicesKept | app/src/main/java/net/kenevans/android/bleexplorer/DeviceScanActivity.java:400-404 | a new sighting moves no earlier first sighting |
| DeviceScan.DistinctListListsItself | app/src/main/java/net/kenevans/android/bleexplorer/DeviceScanActivity.java:400-404 | a duplicate-free list is the list of its own first sightings |
| DeviceScan.FirstSightingsAppendSeen | app/src/main/java/net/kenevans/android/bleexplorer/DeviceScanActivity.java:401 | re-sighting a listed address leaves the list the list of first sightings |
| DeviceScan.NewSightingCovered | app/src/main/java/net/kenevans/android/bleexplorer/DeviceScanActivity.java:401-402 | after appending a new address every address seen so far is still listed |
| DeviceScan.NewSightingEntries | app/src/main/java/net/kenevans/android/bleexplorer/DeviceScanActivity.java:401-402 | after appending a new address every entry is still its address's first sighting, and entries stay in order of first sighting |
| DeviceScan.FirstSightingsAppendNew | app/src/main/java/net/kenevans/android/bleexplorer/DeviceScanActivity.java:401-402 | appending a new address keeps the list the list of first sightings |
| DeviceScan.AddAllListsFirstSightings | app/src/main/java/net/kenevans/android/bleexplorer/DeviceScanActivity.java:400-404 | feeding devices through `addDevice` yields each address exactly once, in order of first sighting, as first sighted |
| DeviceScan.AddAllAppend | app/src/main/java/net/kenevans/android/bleexplorer/DeviceScanActivity.java:485-501 | adding a batch equals adding its two halves one after the other |
| DeviceScan.AddAllThree | app/src/main/java/net/kenevans/android/bleexplorer/DeviceScanActivity.java:485-501 | a batch of three results is three `addDevice` calls in order |
| DeviceScan.RepeatedSightingSteps | app/src/main/java/net/kenevans/android/bleexplorer/DeviceScanActivity.java:400-404 | `addDevice` of a, b, then a' (same address as a) leaves [a, b] |
| DeviceScan.RepeatedSightingExample | app/src/main/java/net/kenevans/android/bleexplorer/DeviceScanActivity.java:400-404 | sightings a, b, a' (same address as a) give the list [a, b] |
| DeviceScan.IsAllPermissionsGranted | app/src/main/java/net/kenevans/android/bleexplorer/DeviceScanActivity.java:526-544 | from API 31 it holds iff connect or scan is granted; below, iff coarse or fine location is granted |
| DeviceScan.ScanFailureName | app/src/main/java/net/kenevans/android/bleexplorer/DeviceScanActivity.java:505-517 | each of the four failure codes gets its own constant's name, and the message is "Unknown" exactly for all other codes |
| DeviceScan.ScanFailureNamesDistinct | app/src/main/java/net/kenevans/android/bleexplorer/DeviceScanActivity.java:505-517 | a known failure name identifies its code |
| DeviceScan.StartScanStep | app/src/main/java/net/kenevans/android/bleexplorer/DeviceScanActivity.java:346-387 | a missing permission sets the latch when BLE is supported. Past the gate, a scan that is not running gets exactly one timer, `mScanning` and one start request. Otherwise nothing changes. The invariant is kept |
| DeviceScan.EndScanStep | app/src/main/java/net/kenevans/android/bleexplorer/DeviceScanActivity.java:325-344 | with BLE it removes every pending timer and clears `mScanning`. It issues one stop only if a scan was on and scan permission is granted. Without BLE nothing changes |
| DeviceScan.TimerFiresStep | app/src/main/java/net/kenevans/android/bleexplorer/DeviceScanActivity.java:363-375 | the timeout consumes one pending timer and clears `mScanning`. It issues a stop when permitted, even if the scan had already ended |
| DeviceScan.ListItemStopStep | app/src/main/java/net/kenevans/android/bleexplorer/DeviceScanActivity.java:314-317 | a list click stops a running scan and clears `mScanning` but leaves its timer queued |
| DeviceScan.BatchScanResultsStep | app/src/main/java/net/kenevans/android/bleexplorer/DeviceScanActivity.java:480-502 | a batch changes only the device list: with connect permitted every result is added in order, otherwise nothing; the invariant is kept |
| DeviceScan.ScanStep | app/src/main/java/net/kenevans/android/bleexplorer/DeviceScanActivity.java:164-175 | every event handler keeps the invariant: a running scan has a timer queued; without BLE there is no scan, no timer and no request; addresses are distinct. Without BLE no event issues a request |
| DeviceScan.ScanInvAlongTrace | app/src/main/java/net/kenevans/android/bleexplorer/DeviceScanActivity.java:346-387 | along any deliverable event sequence the invariant holds, so every scan is time-bounded and the list stays duplicate-free |
| DeviceScan.NoRequestsWithoutBle | app/src/main/java/net/kenevans/android/bleexplorer/DeviceScanActivity.java:328 | without BLE support no sequence of events ever sends a request to the scanner |
| DeviceScan.StartThenTimeout | app/src/main/java/net/kenevans/android/bleexplorer/DeviceScanActivity.java:360-378 | a started scan has exactly one timer, and its firing ends the scan with nothing left pending |
| DeviceScan.StopBeforeTimeout | app/src/main/java/net/kenevans/android/bleexplorer/DeviceScanActivity.java:329-330 | ending a scan before its deadline leaves no timer that could fire |
| DeviceScan.EndScanIdempotent | app/src/main/java/net/kenevans/android/bleexplorer/DeviceScanActivity.java:325-344 | a second `endScan` changes nothing, so two calls issue at most one stop |
| DeviceScan.StartWhileScanningChangesNothing | app/src/main/java/net/kenevans/android/bleexplorer/DeviceScanActivity.java:349-360 | starting while a scan runs posts no timer and issues no start; it changes nothing, unless it is the first start without permission, which only sets the latch |
| DeviceScan.PermissionLatch | app/src/main/java/net/kenevans/android/bleexplorer/DeviceScanActivity.java:349-358 | without permission the first start still proceeds and sets the latch; after it ends, a later start returns at once |
| DeviceScan.StaleTimeoutEndsRestartedScan | app/src/main/java/net/kenevans/android/bleexplorer/DeviceScanActivity.java:314-317 | a scan restarted after a list click has two timers queued, and the stale one ends it early; this needs no `onPause` with Bluetooth on between the click and the restart, since its `endScan` would remove the timer |
| DeviceScan.LeDeviceListAdapter.constructor | app/src/main/java/net/kenevans/android/bleexplorer/DeviceScanActivity.java:394-398 | a new adapter holds no devices |
| DeviceScan.LeDeviceListAdapter.AddDevice | app/src/main/java/net/kenevans/android/bleexplorer/DeviceScanActivity.java:400-404 | the list becomes `WithDevice` of the old list |
| DeviceScan.LeDeviceListAdapter.GetDevice | app/src/main/java/net/kenevans/android/bleexplorer/DeviceScanActivity.java:406-408 | returns the device at the position |
| DeviceScan.LeDeviceListAdapter.Clear | app/src/main/java/net/kenevans/android/bleexplorer/DeviceScanActivity.java:410-412 | the list becomes empty |
| DeviceScan.LeDeviceListAdapter.GetCount | app/src/main/java/net/kenevans/android/bleexplorer/DeviceScanActivity.java:414-417 | returns the list's length |
| DeviceScan.DeviceScanActivity.constructor | app/src/main/java/net/kenevans/android/bleexplorer/DeviceScanActivity.java:60-66 | a new activity is not scanning, has not asked, has no timers, devices or requests, and keeps the invariant |
| DeviceScan.DeviceScanActivity.StartScan | app/src/main/java/net/kenevans/android/bleexplorer/DeviceScanActivity.java:346-387 | the new state is `StartScanStep` of the old, and the invariant is kept |
| DeviceScan.DeviceScanActivity.EndScan | app/src/main/java/net/kenevans/android/bleexplorer/DeviceScanActivity.java:325-344 | the new state is `EndScanStep` of the old, and the invariant is kept |
| DeviceScan.DeviceScanActivity.OnTimer | app/src/main/java/net/kenevans/android/bleexplorer/DeviceScanActivity.java:363-375 | the new state is `TimerFiresStep` of the old, and the invariant is kept |
| DeviceScan.DeviceScanActivity.OnOptionsItemSelected | app/src/main/java/net/kenevans/android/bleexplorer/DeviceScanActivity.java:164-175 | handled iff BLE is supported; scan clears the list and then starts; stop ends the scan |
| DeviceScan.DeviceScanActivity.OnPause | app/src/main/java/net/kenevans/android/bleexplorer/DeviceScanActivity.java:220-231 | with BLE it ends the scan (when Bluetooth is on) and then clears the list |
| DeviceScan.DeviceScanActivity.OnListItemClick | app/src/main/java/net/kenevans/android/bleexplorer/DeviceScanActivity.java:295-323 | the intent carries the clicked device's name and address with OK, or "Permission error" twice with CANCELED when connect is not permitted; a running scan is stopped with its timer left queued |
| DeviceScan.DeviceScanActivity.OnScanResult | app/src/main/java/net/kenevans/android/bleexplorer/DeviceScanActivity.java:469-477 | the result's device is added with `addDevice`, and nothing else changes |
| DeviceScan.DeviceScanActivity.OnBatchScanResults | app/src/main/java/net/kenevans/android/bleexplorer/DeviceScanActivity.java:480-502 | the loop adds every result in order, or none when connect is not permitted |
| DeviceScan.DeviceScanActivity.OnScanFailed | app/src/main/java/net/kenevans/android/bleexplorer/DeviceScanActivity.java:505-517 | returns the failure's name ("Unknown" exactly for unknown codes) and changes no state |
| DeviceControl.SignedNonNegative | app/src/main/java/net/kenevans/android/bleexplorer/DeviceControlActivity.java:348 | a Java int is non-negative iff its sign bit is clear |
| DeviceControl.SignedPositive | app/src/main/java/net/kenevans/android/bleexplorer/DeviceControlActivity.java:349 | a Java int is positive iff it is nonzero with the sign bit clear |
| DeviceControl.OrTestIffNonNegative | app/src/main/java/net/kenevans/android/bleexplorer/DeviceControlActivity.java:349-359 | for a nonzero flag below the sign bit, the bitwise-OR test on the Java int holds iff `p >= 0`, whether or not the flag is set in `p` |
| DeviceControl.NoPropertiesStillPass | app/src/main/java/net/kenevans/android/bleexplorer/DeviceControlActivity.java:349-359 | a characteristic with properties 0 passes both the read and the notify test |
| DeviceControl.EnabledByAppend | app/src/main/java/net/kenevans/android/bleexplorer/DeviceControlActivity.java:343-362 | each logged request updates the enabled set: enable adds, disable removes, others keep it |
| DeviceControl.ThroughoutAppend | app/src/main/java/net/kenevans/android/bleexplorer/DeviceControlActivity.java:342-362 | appending a request that leaves at most one enabled keeps "never two enabled" over every prefix of the log |
| DeviceControl.DisableCurrent | app/src/main/java/net/kenevans/android/bleexplorer/DeviceControlActivity.java:342-346 | with a current notification the log gains exactly its disable request; otherwise the log is unchanged |
| DeviceControl.ReadThenSubscribe | app/src/main/java/net/kenevans/android/bleexplorer/DeviceControlActivity.java:349-362 | at most two requests, each a read or an enable of the clicked characteristic; the read is there iff the read test passes and the enable iff the notify test passes |
| DeviceControl.ChildClickStep | app/src/main/java/net/kenevans/android/bleexplorer/DeviceControlActivity.java:325-372 | a click keeps the connection and lists and only extends the log. A previous `mNotifyCharacteristic` is disabled by the first new request. `mNotifyCharacteristic` becomes the clicked, indexed characteristic iff its notify test passes, and null otherwise |
| DeviceControl.GroupClickStep | app/src/main/java/net/kenevans/android/bleexplorer/DeviceControlActivity.java:93-106 | a group click disables the current notification if any and leaves `mNotifyCharacteristic` null |
| DeviceControl.CharacteristicLists | app/src/main/java/net/kenevans/android/bleexplorer/DeviceControlActivity.java:198-228 | one list per service, in service order, each the service's characteristics in order |
| DeviceControl.DisplayGattServicesStep | app/src/main/java/net/kenevans/android/bleexplorer/DeviceControlActivity.java:184-243 | a null service list changes nothing. Otherwise `mGattCharacteristics` is replaced by one list per service and the list gets its adapter, and nothing else changes |
| DeviceControl.ReceiveStep | app/src/main/java/net/kenevans/android/bleexplorer/DeviceControlActivity.java:291-313 | CONNECTED sets `mConnected` and DISCONNECTED clears it and detaches the list; the other two leave the flag. Only SERVICES_DISCOVERED touches the lists, and a non-null discovery shows the list. No broadcast touches `mNotifyCharacteristic` or the log |
| DeviceControl.OptionsItemStep | app/src/main/java/net/kenevans/android/bleexplorer/DeviceControlActivity.java:151-164 | connect appends `Connect(mDeviceAddress)`, disconnect appends `Disconnect`, home and other items append nothing; nothing else changes and no enabled notification changes |
| DeviceControl.ControlMenuFor | app/src/main/java/net/kenevans/android/bleexplorer/DeviceControlActivity.java:141-147 | exactly one of connect and disconnect is visible; disconnect iff connected |
| DeviceControl.InitialControlStateValid | app/src/main/java/net/kenevans/android/bleexplorer/DeviceControlActivity.java:60-62 | the initial screen keeps the notification invariant |
| DeviceControl.DisableCurrentKeepsInv | app/src/main/java/net/kenevans/android/bleexplorer/DeviceControlActivity.java:342-346 | disabling the current notification leaves none enabled, never two along the way |
| DeviceControl.ReadKeepsNoneEnabled | app/src/main/java/net/kenevans/android/bleexplorer/DeviceControlActivity.java:349-350 | a read request enables nothing |
| DeviceControl.EnableFromNone | app/src/main/java/net/kenevans/android/bleexplorer/DeviceControlActivity.java:359-362 | enabling with none enabled leaves exactly the new characteristic enabled |
| DeviceControl.ReadThenSubscribeKeepsInv | app/src/main/java/net/kenevans/android/bleexplorer/DeviceControlActivity.java:349-362 | from a log with nothing enabled, the click's read and enable leave exactly the clicked characteristic enabled iff its notify test passes, and never two along the way |
| DeviceControl.ChildClickKeepsInv | app/src/main/java/net/kenevans/android/bleexplorer/DeviceControlActivity.java:342-362 | after a child click notification is enabled on exactly `mNotifyCharacteristic`, and never on two along the way |
| DeviceControl.GroupClickKeepsInv | app/src/main/java/net/kenevans/android/bleexplorer/DeviceControlActivity.java:98-102 | after a group click no characteristic is enabled and the invariant holds |
| DeviceControl.OptionsItemKeepsInv | app/src/main/java/net/kenevans/android/bleexplorer/DeviceControlActivity.java:151-164 | connect and disconnect requests keep the notification invariant |
| DeviceControl.ControlStepKeepsInv | app/src/main/java/net/kenevans/android/bleexplorer/DeviceControlActivity.java:291-372 | every handler keeps the notification invariant |
| DeviceControl.AtMostOneNotificationAlongTrace | app/src/main/java/net/kenevans/android/bleexplorer/DeviceControlActivity.java:342-362 | along any sequence of clicks, broadcasts and menu selections, notification is never enabled on two characteristics at once |
| DeviceControl.ChildClickAlwaysReadsAndSubscribes | app/src/main/java/net/kenevans/android/bleexplorer/DeviceControlActivity.java:342-362 | for non-negative properties a click issues: disable of the previous one (if any), then read, then enable; the clicked characteristic becomes `mNotifyCharacteristic` |
| DeviceControl.SwitchRequests | app/src/main/java/net/kenevans/android/bleexplorer/DeviceControlActivity.java:342-362 | with nothing enabled, clicking X then Y (non-negative properties) logs read X, enable X, disable X, read Y, enable Y, and leaves Y as `mNotifyCharacteristic` |
| DeviceControl.SwitchNotification | app/src/main/java/net/kenevans/android/bleexplorer/DeviceControlActivity.java:342-362 | clicking X then Y logs read X, enable X, disable X, read Y, enable Y, and leaves only Y enabled |
| DeviceControl.DisconnectKeepsStaleCharacteristics | app/src/main/java/net/kenevans/android/bleexplorer/DeviceControlActivity.java:297-302 | after DISCONNECTED the lists and `mNotifyCharacteristic` are unchanged, but the list is detached, so neither a child nor a group click can be delivered |
| DeviceControl.NoClickWhileListDetached | app/src/main/java/net/kenevans/android/bleexplorer/DeviceControlActivity.java:376-377 | starting from a detached list (at creation or after `clearUI`), every click of a deliverable sequence of events comes after a discovery that installed an adapter |
| DeviceControl.DeviceControlActivity.constructor | app/src/main/java/net/kenevans/android/bleexplorer/DeviceControlActivity.java:60-62 | a new screen is disconnected with no lists, no notified characteristic, no adapter on the list and no requests |
| DeviceControl.DeviceControlActivity.OnChildClick | app/src/main/java/net/kenevans/android/bleexplorer/DeviceControlActivity.java:323-373 | the click is handled, the new state is `ChildClickStep` of the old, and the invariant is kept |
| DeviceControl.DeviceControlActivity.OnGroupClick | app/src/main/java/net/kenevans/android/bleexplorer/DeviceControlActivity.java:93-106 | the click is left to the list, the new state is `GroupClickStep` of the old, and the invariant is kept |
| DeviceControl.DeviceControlActivity.OnReceive | app/src/main/java/net/kenevans/android/bleexplorer/DeviceControlActivity.java:291-313 | the new state is `ReceiveStep` of the old, and the invariant is kept |
| DeviceControl.DeviceControlActivity.DisplayGattServices | app/src/main/java/net/kenevans/android/bleexplorer/DeviceControlActivity.java:184-243 | the two nested loops and the adapter install build exactly `DisplayGattServicesStep` of the old state |
| DeviceControl.DeviceControlActivity.OnOptionsItemSelected | app/src/main/java/net/kenevans/android/bleexplorer/DeviceControlActivity.java:151-164 | connect, disconnect and home are handled; connect and disconnect are logged; the new state is `OptionsItemStep` of the old |

## Left out

- Views and rendering are not modelled: list rows, `getView`, Toasts, warning dialogs, the data field text (`displayData`, "Pending", "Not readable", "Notification NA"), `clearUI`, and the name/UUID rows `displayGattServices` builds for its adapter.
- The activity lifecycle and IPC glue are not modelled: `onCreate`, `onResume`, binding to `BluetoothLeService`, receiver registration, `onBackPressed`, `setResult`/`startActivity`. The scan screen's menu visibility (`onCreateOptionsMenu` of `DeviceScanActivity`) is UI only and left out too.
- `BluetoothLeService` and the Android Bluetooth stack are not part of this model. Their calls appear only as logged requests, and the services a discovery broadcast refers to are a parameter of the event.
- Threading and time are not modelled: `runOnUiThread` is treated as immediate, and the `Handler` delay is not modelled beyond the queue of pending timeouts. `DEVICE_SCAN_PERIOD` does not appear.
- Permission queries and `Build.VERSION.SDK_INT` are boolean inputs, read afresh for each event.
- Paths where `mBluetoothAdapter`, `mBluetoothLeService` or the adapter is null are not modelled.
- Logging, the uncaught-exception handler and `System.exit` are not modelled.
- GattAttributes.ToLower: case mapping is ASCII only, because Java's full Unicode case mapping is out of reach. Table keys and `BASE_UUID` are ASCII, so only UUIDs holding non-ASCII letters could be named differently. Strings are also indexed by Unicode scalar value rather than by UTF-16 code unit, so `substring(4, 8)`, the length test and the `regionMatches` offsets would differ from Java on characters outside the Basic Multilingual Plane.
- DeviceControl.ChildClickStep: requires a position inside the current lists. Out-of-range positions would throw in Java, and the list view only offers positions of the lists built alongside it.
- DeviceScan.DeviceScanActivity.OnListItemClick: requires a listed position. `getDevice` throws otherwise, so its null check never fires.
- A device's name is fixed when its address is first sighted, whereas `BluetoothDevice.getName()` in `onListItemClick` is a live platform query; a device first seen without a name and named later reaches the intent with its current name in Java but with no name in the model.
- Device identity is the address, as `BluetoothDevice.equals` compares. Characteristic identity is UUID plus an instance id, standing in for Java object identity.
