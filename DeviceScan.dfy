/**
 * The scan screen: the list of discovered devices (`LeDeviceListAdapter`)
 * and the scan controller of `DeviceScanActivity`.
 *
 * The platform scanner is replaced by a log of outbound requests, the
 * `Handler` queue by a count of pending timeout callbacks, and permission
 * queries by boolean inputs.
 */
module DeviceScan {
  import opened Wrappers

  /** A Bluetooth device as the scanner reports it; devices are equal when their addresses are. */
  datatype Device = Device(address: string, name: Option<string>)

  // =====================================================================
  // The device list
  // =====================================================================

  /** `list.contains(device)`: some entry has the device's address. */
  predicate Sighted(list: seq<Device>, address: string) {
    exists i :: 0 <= i < |list| && list[i].address == address
  }

  predicate NoDuplicateAddresses(list: seq<Device>) {
    forall i, j :: 0 <= i < j < |list| ==> list[i].address != list[j].address
  }

  /** The list after `addDevice(device)`. */
  function WithDevice(list: seq<Device>, device: Device): (r: seq<Device>)
    ensures Sighted(r, device.address)
    ensures r == list || r == list + [device]
    ensures r == list <==> Sighted(list, device.address)
    ensures NoDuplicateAddresses(list) ==> NoDuplicateAddresses(r)
  {
    if Sighted(list, device.address) then list
    else
      assert (list + [device])[|list|] == device;
      list + [device]
  }

  /** The list after adding each of `devices` in turn. */
  function AddAll(list: seq<Device>, devices: seq<Device>): (r: seq<Device>)
    ensures |list| <= |r| <= |list| + |devices|
    ensures r[..|list|] == list
    ensures NoDuplicateAddresses(list) ==> NoDuplicateAddresses(r)
    decreases |devices|
  {
    if devices == [] then list
    else WithDevice(AddAll(list, devices[..|devices| - 1]), devices[|devices| - 1])
  }

  /** Adding one more device to a batch is one more `addDevice`. */
  lemma AddAllSnoc(list: seq<Device>, devices: seq<Device>, d: Device)
    ensures AddAll(list, devices + [d]) == WithDevice(AddAll(list, devices), d)
  {
    assert (devices + [d])[..|devices|] == devices;
  }

  lemma SightedTail(all: seq<Device>, address: string)
    requires Sighted(all, address) && all[0].address != address
    ensures Sighted(all[1..], address)
  {
    var i :| 0 <= i < |all| && all[i].address == address;
    assert all[1..][i - 1] == all[i];
  }

  /** The position of the first sighting of `address` in `all`. */
  ghost function FirstIndex(all: seq<Device>, address: string): (k: nat)
    requires Sighted(all, address)
    ensures k < |all| && all[k].address == address
    ensures forall j :: 0 <= j < k ==> all[j].address != address
    decreases |all|
  {
    if all[0].address == address then 0
    else
      SightedTail(all, address);
      1 + FirstIndex(all[1..], address)
  }

  /**
   * `r` lists the devices of `all` once per address, in order of first
   * sighting, each as it was first sighted.
   */
  ghost predicate ListsFirstSightings(r: seq<Device>, all: seq<Device>) {
    && NoDuplicateAddresses(r)
    && (forall i :: 0 <= i < |all| ==> Sighted(r, all[i].address))
    && (forall i :: 0 <= i < |r| ==> Sighted(all, r[i].address))
    && (forall i :: 0 <= i < |r| ==> r[i] == all[FirstIndex(all, r[i].address)])
    && (forall i, j :: 0 <= i < j < |r| ==> FirstIndex(all, r[i].address) < FirstIndex(all, r[j].address))
  }

  lemma FirstIndexAppend(all: seq<Device>, d: Device, address: string)
    requires Sighted(all, address)
    ensures Sighted(all + [d], address)
    ensures FirstIndex(all + [d], address) == FirstIndex(all, address)
  {
    var k := FirstIndex(all, address);
    assert (all + [d])[k] == all[k];
  }

  lemma FirstIndexOfNew(all: seq<Device>, d: Device)
    requires !Sighted(all, d.address)
    ensures Sighted(all + [d], d.address)
    ensures FirstIndex(all + [d], d.address) == |all|
  {
    assert (all + [d])[|all|] == d;
  }

  /** A duplicate-free list is the list of its own first sightings. */
  lemma {:induction false} DistinctListListsItself(list: seq<Device>)
    requires NoDuplicateAddresses(list)
    ensures ListsFirstSightings(list, list)
  {
    forall i | 0 <= i < |list|
      ensures Sighted(list, list[i].address) && FirstIndex(list, list[i].address) == i
    {
      var k := FirstIndex(list, list[i].address);
      assert !(k < i) && !(i < k);
    }
  }

  /** A sighting of a listed address changes neither the list nor any first sighting. */
  lemma FirstSightingsAppendSeen(r: seq<Device>, all: seq<Device>, d: Device)
    requires ListsFirstSightings(r, all) && Sighted(r, d.address)
    ensures ListsFirstSightings(r, all + [d])
  {
    var all' := all + [d];
    forall a | Sighted(all, a)
      ensures Sighted(all', a) && FirstIndex(all', a) == FirstIndex(all, a)
    {
      FirstIndexAppend(all, d, a);
    }
    forall i | 0 <= i < |all'| ensures Sighted(r, all'[i].address) {
      if i < |all| { assert all'[i] == all[i]; }
    }
    forall i | 0 <= i < |r| ensures r[i] == all'[FirstIndex(all', r[i].address)] {
      assert all'[FirstIndex(all, r[i].address)] == all[FirstIndex(all, r[i].address)];
    }
  }

  /** Appending a sighting moves no earlier first sighting. */
  lemma FirstIndicesKept(all: seq<Device>, d: Device)
    ensures forall a :: Sighted(all, a) ==> Sighted(all + [d], a) && FirstIndex(all + [d], a) == FirstIndex(all, a)
  {
    forall a | Sighted(all, a)
      ensures Sighted(all + [d], a) && FirstIndex(all + [d], a) == FirstIndex(all, a)
    {
      FirstIndexAppend(all, d, a);
    }
  }

  /** After a new sighting, every address seen so far is still listed. */
  lemma NewSightingCovered(r: seq<Device>, all: seq<Device>, d: Device)
    requires forall i :: 0 <= i < |all| ==> Sighted(r, all[i].address)
    ensures forall i :: 0 <= i < |all + [d]| ==> Sighted(r + [d], (all + [d])[i].address)
  {
    var all', r' := all + [d], r + [d];
    assert r'[|r|] == d;
    forall i | 0 <= i < |all'| ensures Sighted(r', all'[i].address) {
      if i < |all| {
        assert all'[i] == all[i];
        var j :| 0 <= j < |r| && r[j].address == all[i].address;
        assert r'[j] == r[j];
      }
    }
  }

  /** After a new sighting, every entry is still its address's first sighting, in order. */
  lemma NewSightingEntries(r: seq<Device>, all: seq<Device>, d: Device)
    requires ListsFirstSightings(r, all) && !Sighted(all, d.address)
    ensures forall i :: 0 <= i < |r + [d]| ==>
      Sighted(all + [d], (r + [d])[i].address) && (r + [d])[i] == (all + [d])[FirstIndex(all + [d], (r + [d])[i].address)]
    ensures forall i, j :: 0 <= i < j < |r + [d]| ==>
      FirstIndex(all + [d], (r + [d])[i].address) < FirstIndex(all + [d], (r + [d])[j].address)
  {
    var all', r' := all + [d], r + [d];
    FirstIndicesKept(all, d);
    FirstIndexOfNew(all, d);
    forall i | 0 <= i < |r'|
      ensures Sighted(all', r'[i].address) && r'[i] == all'[FirstIndex(all', r'[i].address)]
    {
      if i < |r| {
        assert r'[i] == r[i];
        assert all'[FirstIndex(all, r[i].address)] == all[FirstIndex(all, r[i].address)];
      }
    }
    forall i, j | 0 <= i < j < |r'|
      ensures FirstIndex(all', r'[i].address) < FirstIndex(all', r'[j].address)
    {
      assert r'[i] == r[i];
      if j < |r| { assert r'[j] == r[j]; }
    }
  }

  /** A sighting of a new address is its own first sighting and goes to the end. */
  lemma FirstSightingsAppendNew(r: seq<Device>, all: seq<Device>, d: Device)
    requires ListsFirstSightings(r, all) && !Sighted(r, d.address)
    ensures ListsFirstSightings(r + [d], all + [d])
  {
    assert !Sighted(all, d.address);
    assert (r + [d])[|r|] == d;
    NewSightingCovered(r, all, d);
    NewSightingEntries(r, all, d);
  }

  /**
   * Feeding devices one at a time through `addDevice` into a duplicate-free
   * list yields exactly the first sightings of everything seen, in order.
   */
  lemma {:induction false} AddAllListsFirstSightings(list: seq<Device>, devices: seq<Device>)
    requires NoDuplicateAddresses(list)
    ensures ListsFirstSightings(AddAll(list, devices), list + devices)
    decreases |devices|
  {
    if devices == [] {
      assert list + devices == list;
      DistinctListListsItself(list);
    } else {
      var init, d := devices[..|devices| - 1], devices[|devices| - 1];
      AddAllListsFirstSightings(list, init);
      assert list + devices == (list + init) + [d];
      var r := AddAll(list, init);
      if Sighted(r, d.address) {
        FirstSightingsAppendSeen(r, list + init, d);
      } else {
        FirstSightingsAppendNew(r, list + init, d);
      }
    }
  }

  /** Adding a batch is adding its two halves one after the other. */
  lemma {:induction false} AddAllAppend(list: seq<Device>, xs: seq<Device>, ys: seq<Device>)
    ensures AddAll(list, xs + ys) == AddAll(AddAll(list, xs), ys)
    decreases |ys|
  {
    if ys == [] {
      assert xs + ys == xs;
    } else {
      var init := ys[..|ys| - 1];
      assert (xs + ys)[..|xs + ys| - 1] == xs + init;
      assert (xs + ys)[|xs + ys| - 1] == ys[|ys| - 1];
      AddAllAppend(list, xs, init);
    }
  }

  /** A batch of three is three `addDevice` calls in order. */
  lemma AddAllThree(x: Device, y: Device, z: Device)
    ensures AddAll([], [x, y, z]) == WithDevice(WithDevice(WithDevice([], x), y), z)
  {
    assert [x, y, z][..2] == [x, y];
    assert [x, y][..1] == [x];
    assert [x][..0] == [];
    assert AddAll([], [x]) == WithDevice([], x);
    assert AddAll([], [x, y]) == WithDevice(AddAll([], [x]), y);
  }

  /** Three `addDevice` calls where the third repeats the first address. */
  lemma RepeatedSightingSteps(a: Device, b: Device, a2: Device)
    requires a.address != b.address && a2.address == a.address
    ensures WithDevice(WithDevice(WithDevice([], a), b), a2) == [a, b]
  {
    assert WithDevice([], a) == [a];
    assert !Sighted([a], b.address);
    assert WithDevice([a], b) == [a, b];
    assert [a, b][0].address == a2.address;
    assert WithDevice([a, b], a2) == [a, b];
  }

  /** Upsert by address: a later sighting of a listed address leaves the list as it was. */
  lemma RepeatedSightingExample(a: Device, b: Device, a2: Device)
    requires a.address != b.address && a2.address == a.address
    ensures AddAll([], [a, b, a2]) == [a, b]
  {
    AddAllThree(a, b, a2);
    RepeatedSightingSteps(a, b, a2);
  }

  // =====================================================================
  // Permissions and scan failures
  // =====================================================================

  /** The answers of the platform's permission queries and its API level. */
  datatype Permissions = Permissions(
    sdkAtLeast31: bool,
    connectGranted: bool,
    scanGranted: bool,
    coarseLocationGranted: bool,
    fineLocationGranted: bool)

  /** BLUETOOTH_SCAN is granted, or not needed below API 31. */
  predicate ScanPermitted(p: Permissions) {
    !p.sdkAtLeast31 || p.scanGranted
  }

  /** BLUETOOTH_CONNECT is granted, or not needed below API 31. */
  predicate ConnectPermitted(p: Permissions) {
    !p.sdkAtLeast31 || p.connectGranted
  }

  /** `isAllPermissionsGranted`: despite its name, either one of the two relevant permissions suffices. */
  function IsAllPermissionsGranted(p: Permissions): (granted: bool)
    ensures p.sdkAtLeast31 ==> (granted <==> ConnectPermitted(p) || ScanPermitted(p))
    ensures !p.sdkAtLeast31 ==> (granted <==> p.coarseLocationGranted || p.fineLocationGranted)
  {
    if p.sdkAtLeast31 then p.connectGranted || p.scanGranted
    else p.coarseLocationGranted || p.fineLocationGranted
  }

  /** `ScanCallback` failure codes of the platform. */
  const SCAN_FAILED_ALREADY_STARTED: int := 1
  const SCAN_FAILED_APPLICATION_REGISTRATION_FAILED: int := 2
  const SCAN_FAILED_INTERNAL_ERROR: int := 3
  const SCAN_FAILED_FEATURE_UNSUPPORTED: int := 4

  /** The message `onScanFailed` logs for a failure code. */
  function ScanFailureName(errorCode: int): (msg: string)
    ensures msg == "Unknown" <==> !(1 <= errorCode <= 4)
    ensures errorCode == SCAN_FAILED_ALREADY_STARTED ==> msg == "SCAN_FAILED_ALREADY_STARTED"
    ensures errorCode == SCAN_FAILED_APPLICATION_REGISTRATION_FAILED ==> msg == "SCAN_FAILED_APPLICATION_REGISTRATION_FAILED"
    ensures errorCode == SCAN_FAILED_INTERNAL_ERROR ==> msg == "SCAN_FAILED_INTERNAL_ERROR"
    ensures errorCode == SCAN_FAILED_FEATURE_UNSUPPORTED ==> msg == "SCAN_FAILED_FEATURE_UNSUPPORTED"
  {
    if errorCode == SCAN_FAILED_ALREADY_STARTED then "SCAN_FAILED_ALREADY_STARTED"
    else if errorCode == SCAN_FAILED_APPLICATION_REGISTRATION_FAILED then "SCAN_FAILED_APPLICATION_REGISTRATION_FAILED"
    else if errorCode == SCAN_FAILED_FEATURE_UNSUPPORTED then "SCAN_FAILED_FEATURE_UNSUPPORTED"
    else if errorCode == SCAN_FAILED_INTERNAL_ERROR then "SCAN_FAILED_INTERNAL_ERROR"
    else "Unknown"
  }

  /** Distinct known codes get distinct names, so the logged name identifies the code. */
  lemma ScanFailureNamesDistinct(c1: int, c2: int)
    requires ScanFailureName(c1) != "Unknown" && ScanFailureName(c1) == ScanFailureName(c2)
    ensures c1 == c2
  {
  }

  // =====================================================================
  // The scan controller as a state machine
  // =====================================================================

  /** Requests issued to the platform scanner. */
  datatype ScanRequest = StartRequest | StopRequest

  /**
   * `mScanning`, `mAllPermissionsAsked`, the number of timeout callbacks
   * waiting in the `Handler`, the device list and the requests issued so far.
   */
  datatype ScanState = ScanState(
    scanning: bool,
    allPermissionsAsked: bool,
    pendingTimers: nat,
    devices: seq<Device>,
    requests: seq<ScanRequest>)

  const InitialScanState := ScanState(false, false, 0, [], [])

  /**
   * While a scan runs a timeout is pending, so every scan is time-bounded;
   * without BLE nothing ever starts; the list has one entry per address.
   */
  ghost predicate ScanInv(s: ScanState, bleSupported: bool) {
    && (s.scanning ==> s.pendingTimers > 0)
    && (!bleSupported ==> !s.scanning && s.pendingTimers == 0 && s.requests == [])
    && NoDuplicateAddresses(s.devices)
  }

  /** The gate of `startScan`: BLE is supported, and a permission is granted or not yet asked about. */
  predicate PassesGate(s: ScanState, bleSupported: bool, p: Permissions) {
    bleSupported && (IsAllPermissionsGranted(p) || !s.allPermissionsAsked)
  }

  /** `startScan`. */
  function StartScanStep(s: ScanState, bleSupported: bool, p: Permissions): (t: ScanState)
    ensures t.devices == s.devices
    ensures t.allPermissionsAsked == (s.allPermissionsAsked || (bleSupported && !IsAllPermissionsGranted(p)))
    ensures PassesGate(s, bleSupported, p) && !s.scanning ==>
      t.scanning && t.pendingTimers == s.pendingTimers + 1 && t.requests == s.requests + [StartRequest]
    ensures !(PassesGate(s, bleSupported, p) && !s.scanning) ==>
      t.scanning == s.scanning && t.pendingTimers == s.pendingTimers && t.requests == s.requests
    ensures ScanInv(s, bleSupported) ==> ScanInv(t, bleSupported)
  {
    if !bleSupported then s
    else if !IsAllPermissionsGranted(p) && s.allPermissionsAsked then s
    else
      var s1 := if !IsAllPermissionsGranted(p) then s.(allPermissionsAsked := true) else s;
      if !s1.scanning then
        s1.(pendingTimers := s1.pendingTimers + 1, scanning := true, requests := s1.requests + [StartRequest])
      else s1
  }

  /** `endScan`: cancels every pending timeout and stops a running scan if permitted. */
  function EndScanStep(s: ScanState, bleSupported: bool, p: Permissions): (t: ScanState)
    ensures t.devices == s.devices && t.allPermissionsAsked == s.allPermissionsAsked
    ensures t.requests == s.requests + (if bleSupported && s.scanning && ScanPermitted(p) then [StopRequest] else [])
    ensures bleSupported ==> !t.scanning && t.pendingTimers == 0
    ensures !bleSupported ==> t == s
    ensures ScanInv(s, bleSupported) ==> ScanInv(t, bleSupported) && !t.scanning && t.pendingTimers == 0
  {
    if !bleSupported then s
    else
      s.(pendingTimers := 0,
         scanning := false,
         requests := s.requests + (if s.scanning && ScanPermitted(p) then [StopRequest] else []))
  }

  /** The timeout callback: stops the scanner if permitted, whether or not a scan is still on. */
  function TimerFiresStep(s: ScanState, p: Permissions): (t: ScanState)
    requires s.pendingTimers > 0
    ensures !t.scanning && t.pendingTimers == s.pendingTimers - 1
    ensures t.requests == s.requests + (if ScanPermitted(p) then [StopRequest] else [])
    ensures t.devices == s.devices && t.allPermissionsAsked == s.allPermissionsAsked
    ensures forall ble :: ScanInv(s, ble) ==> ScanInv(t, ble)
  {
    s.(pendingTimers := s.pendingTimers - 1,
       scanning := false,
       requests := s.requests + (if ScanPermitted(p) then [StopRequest] else []))
  }

  /** The scanning part of `onListItemClick`: stops a running scan but leaves its timeout queued. */
  function ListItemStopStep(s: ScanState): (t: ScanState)
    ensures !t.scanning && t.pendingTimers == s.pendingTimers
    ensures t.requests == s.requests + (if s.scanning then [StopRequest] else [])
    ensures t.devices == s.devices && t.allPermissionsAsked == s.allPermissionsAsked
    ensures forall ble :: ScanInv(s, ble) ==> ScanInv(t, ble)
  {
    if s.scanning then s.(scanning := false, requests := s.requests + [StopRequest]) else s
  }

  /** `onBatchScanResults`: each result in order through `addDevice`, or none without the connect permission. */
  function BatchScanResultsStep(s: ScanState, results: seq<Device>, p: Permissions): (t: ScanState)
    ensures t == s.(devices := t.devices)
    ensures ConnectPermitted(p) ==> t.devices == AddAll(s.devices, results)
    ensures !ConnectPermitted(p) ==> t.devices == s.devices
    ensures forall ble :: ScanInv(s, ble) ==> ScanInv(t, ble)
  {
    if ConnectPermitted(p) then s.(devices := AddAll(s.devices, results)) else s
  }

  /** Items of the scan screen's options menu. */
  datatype ScanMenuItem = ScanItem | StopItem | OtherItem

  /** Everything that can happen to the scan screen. */
  datatype ScanEvent =
    | OptionsItemSelected(item: ScanMenuItem)
    | Pause(bluetoothEnabled: bool)
    | TimerFires
    | ScanResult(device: Device)
    | BatchScanResults(results: seq<Device>)
    | ListItemClick(position: nat)
    | ScanFailed(errorCode: int)

  /** An event together with the permission answers in force when it happens. */
  datatype ScanInput = ScanInput(event: ScanEvent, perms: Permissions)

  /** A timeout runs only when one is queued; a click names a listed row. */
  predicate CanDeliver(s: ScanState, e: ScanEvent) {
    match e
    case TimerFires => s.pendingTimers > 0
    case ListItemClick(position) => position < |s.devices|
    case _ => true
  }

  /** The handler of each event. */
  function ScanStep(s: ScanState, bleSupported: bool, input: ScanInput): (t: ScanState)
    requires CanDeliver(s, input.event)
    ensures ScanInv(s, bleSupported) ==> ScanInv(t, bleSupported)
    ensures !bleSupported && ScanInv(s, bleSupported) ==> t.requests == s.requests
  {
    var p := input.perms;
    match input.event
    case OptionsItemSelected(item) =>
      if !bleSupported then s
      else if item == ScanItem then StartScanStep(s.(devices := []), bleSupported, p)
      else if item == StopItem then EndScanStep(s, bleSupported, p)
      else s
    case Pause(bluetoothEnabled) =>
      if !bleSupported then s
      else (if bluetoothEnabled then EndScanStep(s, bleSupported, p) else s).(devices := [])
    case TimerFires => TimerFiresStep(s, p)
    case ScanResult(device) => s.(devices := WithDevice(s.devices, device))
    case BatchScanResults(results) => BatchScanResultsStep(s, results, p)
    case ListItemClick(_) => ListItemStopStep(s)
    case ScanFailed(_) => s
  }

  /** Every event of `inputs` can be delivered in the state it reaches. */
  predicate DeliverableScanTrace(s: ScanState, bleSupported: bool, inputs: seq<ScanInput>)
    decreases |inputs|
  {
    inputs == [] ||
    (CanDeliver(s, inputs[0].event) &&
     DeliverableScanTrace(ScanStep(s, bleSupported, inputs[0]), bleSupported, inputs[1..]))
  }

  /** The state after handling `inputs` in order. */
  function RunScan(s: ScanState, bleSupported: bool, inputs: seq<ScanInput>): ScanState
    requires DeliverableScanTrace(s, bleSupported, inputs)
    decreases |inputs|
  {
    if inputs == [] then s
    else RunScan(ScanStep(s, bleSupported, inputs[0]), bleSupported, inputs[1..])
  }

  /** Along any sequence of events a running scan always has a timeout queued, and the list stays duplicate-free. */
  lemma {:induction false} ScanInvAlongTrace(s: ScanState, bleSupported: bool, inputs: seq<ScanInput>)
    requires ScanInv(s, bleSupported) && DeliverableScanTrace(s, bleSupported, inputs)
    ensures ScanInv(RunScan(s, bleSupported, inputs), bleSupported)
    decreases |inputs|
  {
    if inputs != [] {
      ScanInvAlongTrace(ScanStep(s, bleSupported, inputs[0]), bleSupported, inputs[1..]);
    }
  }

  /** Without BLE no request ever reaches the platform scanner, whatever happens. */
  lemma {:induction false} NoRequestsWithoutBle(s: ScanState, inputs: seq<ScanInput>)
    requires ScanInv(s, false) && DeliverableScanTrace(s, false, inputs)
    ensures RunScan(s, false, inputs).requests == s.requests
    decreases |inputs|
  {
    if inputs != [] {
      NoRequestsWithoutBle(ScanStep(s, false, inputs[0]), inputs[1..]);
    }
  }

  /** A scan left alone is ended by its one timeout, after which nothing is pending. */
  lemma StartThenTimeout(s: ScanState, p: Permissions)
    requires !s.scanning && s.pendingTimers == 0 && PassesGate(s, true, p)
    ensures StartScanStep(s, true, p).pendingTimers == 1
    ensures var t := TimerFiresStep(StartScanStep(s, true, p), p);
      !t.scanning && t.pendingTimers == 0 &&
      t.requests == s.requests + [StartRequest] + (if ScanPermitted(p) then [StopRequest] else [])
  {
  }

  /** Stopping before the deadline cancels the timeout: nothing is left to fire. */
  lemma StopBeforeTimeout(s: ScanState, p: Permissions)
    requires !s.scanning && s.pendingTimers == 0 && PassesGate(s, true, p)
    ensures var t := EndScanStep(StartScanStep(s, true, p), true, p);
      !t.scanning && !CanDeliver(t, TimerFires)
  {
  }

  /** `endScan` is idempotent, so calling it twice issues at most one stop. */
  lemma EndScanIdempotent(s: ScanState, bleSupported: bool, p: Permissions)
    requires ScanInv(s, bleSupported)
    ensures EndScanStep(EndScanStep(s, bleSupported, p), bleSupported, p) == EndScanStep(s, bleSupported, p)
    ensures |EndScanStep(s, bleSupported, p).requests| <= |s.requests| + 1
  {
  }

  /**
   * Starting while a scan runs posts no timeout and issues no start; the
   * only change is the latch, set by a first start without permission.
   */
  lemma StartWhileScanningChangesNothing(s: ScanState, bleSupported: bool, p: Permissions)
    requires s.scanning
    ensures StartScanStep(s, bleSupported, p) ==
      if bleSupported && !s.allPermissionsAsked && !IsAllPermissionsGranted(p) then s.(allPermissionsAsked := true)
      else s
  {
  }

  /**
   * The permission latch: without any permission the first start still
   * proceeds and sets the latch; every later start returns at once.
   */
  lemma PermissionLatch(s: ScanState, p: Permissions)
    requires !s.scanning && !s.allPermissionsAsked && !IsAllPermissionsGranted(p)
    ensures var t := StartScanStep(s, true, p);
      t.allPermissionsAsked && t.scanning && t.requests == s.requests + [StartRequest] &&
      var u := EndScanStep(t, true, p);
      StartScanStep(u, true, p) == u
  {
  }

  /**
   * A list click stops the scan but leaves its timeout queued; a scan
   * restarted before that timeout runs has two queued, and the stale one
   * ends the new scan early. The scenario needs the screen not to pass
   * through `onPause` with Bluetooth on between the click and the restart:
   * the `startActivity` of the click normally pauses the screen, and that
   * `endScan` would remove the queued timeout.
   */
  lemma StaleTimeoutEndsRestartedScan(s: ScanState, p: Permissions)
    requires s.scanning && s.pendingTimers == 1 && IsAllPermissionsGranted(p)
    ensures var t := StartScanStep(ListItemStopStep(s), true, p);
      t.scanning && t.pendingTimers == 2 &&
      var u := TimerFiresStep(t, p);
      !u.scanning && u.pendingTimers == 1
  {
  }

  // =====================================================================
  // The objects
  // =====================================================================

  /** `LeDeviceListAdapter`: the devices shown on the scan screen. */
  class LeDeviceListAdapter {
    var devices: seq<Device>

    constructor ()
      ensures devices == []
    {
      devices := [];
    }

    method AddDevice(device: Device)
      modifies this
      ensures devices == WithDevice(old(devices), device)
    {
      if !Sighted(devices, device.address) {
        devices := devices + [device];
      }
    }

    method GetDevice(position: nat) returns (device: Device)
      requires position < |devices|
      ensures device == devices[position]
    {
      device := devices[position];
    }

    method Clear()
      modifies this
      ensures devices == []
    {
      devices := [];
    }

    method GetCount() returns (count: nat)
      ensures count == |devices|
    {
      count := |devices|;
    }
  }

  /** The extras `onListItemClick` hands to the device screen. */
  datatype DeviceIntent = DeviceIntent(deviceName: Option<string>, deviceAddress: string, resultOk: bool)

  /** `DeviceScanActivity`, from the point where `onCreate` has decided whether BLE is supported. */
  class DeviceScanActivity {
    const bleSupported: bool
    const adapter: LeDeviceListAdapter
    var scanning: bool
    var allPermissionsAsked: bool
    /** Timeout callbacks posted to the `Handler` and not yet run or removed. */
    var pendingTimers: nat
    /** Requests issued to the platform scanner so far. */
    ghost var requests: seq<ScanRequest>

    ghost function State(): ScanState
      reads this, adapter
    {
      ScanState(scanning, allPermissionsAsked, pendingTimers, adapter.devices, requests)
    }

    ghost predicate Valid()
      reads this, adapter
    {
      ScanInv(State(), bleSupported)
    }

    constructor (bleSupported: bool)
      ensures Valid() && fresh(adapter)
      ensures this.bleSupported == bleSupported && State() == InitialScanState
    {
      this.bleSupported := bleSupported;
      adapter := new LeDeviceListAdapter();
      scanning, allPermissionsAsked, pendingTimers := false, false, 0;
      requests := [];
    }

    method StartScan(p: Permissions)
      requires Valid()
      modifies this
      ensures Valid() && State() == StartScanStep(old(State()), bleSupported, p)
    {
      if !bleSupported {
        return;
      }
      if !IsAllPermissionsGranted(p) {
        if !allPermissionsAsked {
          allPermissionsAsked := true;
        } else {
          return;
        }
      }
      if !scanning {
        pendingTimers := pendingTimers + 1;
        scanning := true;
        requests := requests + [StartRequest];
      }
    }

    method EndScan(p: Permissions)
      requires Valid()
      modifies this
      ensures Valid() && State() == EndScanStep(old(State()), bleSupported, p)
    {
      if !bleSupported {
        return;
      }
      pendingTimers := 0;
      if scanning {
        if ScanPermitted(p) {
          requests := requests + [StopRequest];
        }
      }
      scanning := false;
    }

    /** The timeout `Runnable` posted by `startScan`, run by the `Handler`. */
    method OnTimer(p: Permissions)
      requires Valid() && pendingTimers > 0
      modifies this
      ensures Valid() && State() == TimerFiresStep(old(State()), p)
    {
      pendingTimers := pendingTimers - 1;
      if ScanPermitted(p) {
        requests := requests + [StopRequest];
      }
      scanning := false;
    }

    method OnOptionsItemSelected(item: ScanMenuItem, p: Permissions) returns (handled: bool)
      requires Valid()
      modifies this, adapter
      ensures handled == bleSupported
      ensures Valid() && State() == ScanStep(old(State()), bleSupported, ScanInput(OptionsItemSelected(item), p))
    {
      if !bleSupported {
        return false;
      }
      if item == ScanItem {
        adapter.Clear();
        StartScan(p);
      }
      if item == StopItem {
        EndScan(p);
      }
      return true;
    }

    method OnPause(bluetoothEnabled: bool, p: Permissions)
      requires Valid()
      modifies this, adapter
      ensures Valid() && State() == ScanStep(old(State()), bleSupported, ScanInput(Pause(bluetoothEnabled), p))
    {
      if !bleSupported {
        return;
      }
      if bluetoothEnabled {
        EndScan(p);
      }
      adapter.Clear();
    }

    method OnListItemClick(position: nat, p: Permissions) returns (intent: DeviceIntent)
      requires Valid() && position < |adapter.devices|
      modifies this
      ensures ConnectPermitted(p) ==>
        intent == DeviceIntent(adapter.devices[position].name, adapter.devices[position].address, true)
      ensures !ConnectPermitted(p) ==>
        intent == DeviceIntent(Some("Permission error"), "Permission error", false)
      ensures Valid() && State() == ScanStep(old(State()), bleSupported, ScanInput(ListItemClick(position), p))
    {
      var device := adapter.GetDevice(position);
      if !ConnectPermitted(p) {
        intent := DeviceIntent(Some("Permission error"), "Permission error", false);
      } else {
        intent := DeviceIntent(device.name, device.address, true);
      }
      if scanning {
        requests := requests + [StopRequest];
        scanning := false;
      }
    }

    method OnScanResult(device: Device)
      requires Valid()
      modifies adapter
      ensures Valid() && State() == old(State()).(devices := WithDevice(old(adapter.devices), device))
    {
      adapter.AddDevice(device);
    }

    /** Adds each result in order; a missing connect permission abandons the rest of the batch. */
    method OnBatchScanResults(results: seq<Device>, p: Permissions)
      requires Valid()
      modifies adapter
      ensures Valid() && State() == BatchScanResultsStep(old(State()), results, p)
    {
      var i := 0;
      while i < |results|
        invariant 0 <= i <= |results|
        invariant adapter.devices == AddAll(old(adapter.devices), results[..i])
        invariant !ConnectPermitted(p) ==> i == 0
      {
        if !ConnectPermitted(p) {
          return;
        }
        assert results[..i + 1] == results[..i] + [results[i]];
        AddAllSnoc(old(adapter.devices), results[..i], results[i]);
        adapter.AddDevice(results[i]);
        i := i + 1;
      }
      assert results[..i] == results;
    }

    /** Only logs the failure: the scan state is left as it was. */
    method OnScanFailed(errorCode: int) returns (msg: string)
      ensures msg == "Unknown" <==> !(1 <= errorCode <= 4)
      ensures msg == ScanFailureName(errorCode)
    {
      msg := ScanFailureName(errorCode);
    }
  }
}
