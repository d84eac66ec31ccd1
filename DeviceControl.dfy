/**
 * The device screen of `DeviceControlActivity`: the connection flag driven
 * by GATT events, the characteristic lists rebuilt from the discovered
 * services, and the discipline around the one characteristic whose
 * notifications are on.
 *
 * Calls into `BluetoothLeService` are recorded as a log of requests; which
 * characteristics have notification enabled is read off that log.
 */
module DeviceControl {
  import opened Wrappers

  // =====================================================================
  // The property tests on a Java int
  // =====================================================================

  /** `BluetoothGattCharacteristic.PROPERTY_READ` and `PROPERTY_NOTIFY`. */
  const PROPERTY_READ: bv32 := 0x02
  const PROPERTY_NOTIFY: bv32 := 0x10

  /** The value of a Java int held as its 32 two's complement bits. */
  function SignedValue(b: bv32): int {
    if b < 0x8000_0000 then b as int else b as int - 0x1_0000_0000
  }

  /** The sign of a Java int is its top bit. */
  lemma SignedNonNegative(b: bv32)
    ensures SignedValue(b) >= 0 <==> b < 0x8000_0000
  {
  }

  /** Java's `b > 0` on the bits: nonzero with the sign bit clear. */
  predicate IsPositive(b: bv32) {
    b != 0 && b < 0x8000_0000
  }

  lemma SignedPositive(b: bv32)
    ensures SignedValue(b) > 0 <==> IsPositive(b)
  {
  }

  /** Java's `(p | flag) > 0`, the test the source applies to a characteristic's properties. */
  predicate OrTest(p: bv32, flag: bv32) {
    IsPositive(p | flag)
  }

  /**
   * With a nonzero flag below the sign bit, the bitwise-OR test holds
   * exactly for the non-negative property values: it never looks at
   * whether the flag is among the properties.
   */
  lemma OrTestIffNonNegative(p: bv32, flag: bv32)
    requires flag != 0 && flag < 0x8000_0000
    ensures OrTest(p, flag) <==> SignedValue(p) >= 0
  {
    SignedNonNegative(p);
    assert (p | flag != 0 && p | flag < 0x8000_0000) <==> p < 0x8000_0000;
  }

  /** A characteristic with no properties at all is still read and subscribed to. */
  lemma NoPropertiesStillPass()
    ensures OrTest(0, PROPERTY_READ) && OrTest(0, PROPERTY_NOTIFY)
  {
    OrTestIffNonNegative(0, PROPERTY_READ);
    OrTestIffNonNegative(0, PROPERTY_NOTIFY);
  }

  // =====================================================================
  // Data
  // =====================================================================

  /**
   * A GATT characteristic; `instanceId` tells apart two with the same UUID,
   * and `properties` holds the bits of the Java int `getProperties()` returns.
   */
  datatype Characteristic = Characteristic(uuid: string, instanceId: int, properties: bv32)

  datatype Service = Service(uuid: string, characteristics: seq<Characteristic>)

  /** Requests issued to `BluetoothLeService`. */
  datatype GattRequest =
    | Connect(address: string)
    | Disconnect
    | ReadCharacteristic(characteristic: Characteristic)
    | SetNotification(characteristic: Characteristic, enable: bool)

  /** The broadcasts `mGattUpdateReceiver` handles, as a tagged union instead of action strings. */
  datatype GattEvent =
    | GattConnected
    | GattDisconnected
    | ServicesDiscovered(services: Option<seq<Service>>)
    | DataAvailable(data: Option<string>)

  // =====================================================================
  // Notification bookkeeping read off the request log
  // =====================================================================

  function AfterRequest(enabled: set<Characteristic>, r: GattRequest): set<Characteristic> {
    match r
    case SetNotification(c, enable) => if enable then enabled + {c} else enabled - {c}
    case _ => enabled
  }

  /** The characteristics whose most recent notification request enabled it. */
  ghost function EnabledBy(requests: seq<GattRequest>): set<Characteristic>
    decreases |requests|
  {
    if requests == [] then {}
    else AfterRequest(EnabledBy(requests[..|requests| - 1]), requests[|requests| - 1])
  }

  lemma EnabledByAppend(requests: seq<GattRequest>, r: GattRequest)
    ensures EnabledBy(requests + [r]) == AfterRequest(EnabledBy(requests), r)
  {
    assert (requests + [r])[..|requests|] == requests;
  }

  /** At no point of the log were two characteristics enabled at once. */
  ghost predicate AtMostOneEnabledThroughout(requests: seq<GattRequest>) {
    forall n :: 0 <= n <= |requests| ==> |EnabledBy(requests[..n])| <= 1
  }

  lemma ThroughoutAppend(requests: seq<GattRequest>, r: GattRequest)
    requires AtMostOneEnabledThroughout(requests)
    requires |AfterRequest(EnabledBy(requests), r)| <= 1
    ensures AtMostOneEnabledThroughout(requests + [r])
    ensures EnabledBy(requests + [r]) == AfterRequest(EnabledBy(requests), r)
  {
    var log := requests + [r];
    EnabledByAppend(requests, r);
    forall n | 0 <= n <= |log| ensures |EnabledBy(log[..n])| <= 1 {
      if n <= |requests| {
        assert log[..n] == requests[..n];
      } else {
        assert log[..n] == log;
      }
    }
  }

  function NotifySet(notify: Option<Characteristic>): set<Characteristic> {
    if notify.Some? then {notify.value} else {}
  }

  // =====================================================================
  // The control screen as a state machine
  // =====================================================================

  /**
   * `mConnected`, `mGattCharacteristics`, `mNotifyCharacteristic`, whether
   * `mGattServicesList` has an adapter (so that it offers rows to click),
   * and the requests issued so far.
   */
  datatype ControlState = ControlState(
    connected: bool,
    gattCharacteristics: seq<seq<Characteristic>>,
    notifyCharacteristic: Option<Characteristic>,
    listShown: bool,
    requests: seq<GattRequest>)

  const InitialControlState := ControlState(false, [], None, false, [])

  /**
   * Notification is enabled on exactly `mNotifyCharacteristic`, if any, and
   * at no point of the log was it enabled on two characteristics.
   */
  ghost predicate ControlInv(s: ControlState) {
    EnabledBy(s.requests) == NotifySet(s.notifyCharacteristic) &&
    AtMostOneEnabledThroughout(s.requests)
  }

  predicate ValidPosition(s: ControlState, groupPosition: nat, childPosition: nat) {
    groupPosition < |s.gattCharacteristics| && childPosition < |s.gattCharacteristics[groupPosition]|
  }

  /** The log after turning off the current notification, if there is one. */
  function DisableCurrent(s: ControlState): (log: seq<GattRequest>)
    ensures s.notifyCharacteristic.None? ==> log == s.requests
    ensures s.notifyCharacteristic.Some? ==>
      |log| == |s.requests| + 1 && log[..|s.requests|] == s.requests &&
      log[|s.requests|] == SetNotification(s.notifyCharacteristic.value, false)
  {
    if s.notifyCharacteristic.Some? then s.requests + [SetNotification(s.notifyCharacteristic.value, false)]
    else s.requests
  }

  /** What a click on `ch` asks of the service once the old notification is off. */
  function ReadThenSubscribe(ch: Characteristic): (rs: seq<GattRequest>)
    ensures |rs| <= 2
    ensures ReadCharacteristic(ch) in rs <==> OrTest(ch.properties, PROPERTY_READ)
    ensures SetNotification(ch, true) in rs <==> OrTest(ch.properties, PROPERTY_NOTIFY)
    ensures forall i :: 0 <= i < |rs| ==> rs[i] == ReadCharacteristic(ch) || rs[i] == SetNotification(ch, true)
  {
    (if OrTest(ch.properties, PROPERTY_READ) then [ReadCharacteristic(ch)] else []) +
    (if OrTest(ch.properties, PROPERTY_NOTIFY) then [SetNotification(ch, true)] else [])
  }

  /**
   * `onChildClick`: turn off the current notification, then read the
   * clicked characteristic and turn its notification on, each when its
   * property test passes.
   */
  function ChildClickStep(s: ControlState, groupPosition: nat, childPosition: nat): (t: ControlState)
    requires ValidPosition(s, groupPosition, childPosition)
    ensures t.connected == s.connected && t.gattCharacteristics == s.gattCharacteristics && t.listShown == s.listShown
    ensures |t.requests| >= |s.requests| && t.requests[..|s.requests|] == s.requests
    ensures s.notifyCharacteristic.Some? ==>
      |t.requests| > |s.requests| &&
      t.requests[|s.requests|] == SetNotification(s.notifyCharacteristic.value, false)
    ensures var ch := s.gattCharacteristics[groupPosition][childPosition];
      t.notifyCharacteristic == (if OrTest(ch.properties, PROPERTY_NOTIFY) then Some(ch) else None)
  {
    var ch := s.gattCharacteristics[groupPosition][childPosition];
    var log := DisableCurrent(s) + ReadThenSubscribe(ch);
    assert log[..|s.requests|] == DisableCurrent(s)[..|s.requests|];
    s.(notifyCharacteristic := if OrTest(ch.properties, PROPERTY_NOTIFY) then Some(ch) else None,
       requests := log)
  }

  /** The group-click listener: turn off the current notification and forget it. */
  function GroupClickStep(s: ControlState): (t: ControlState)
    ensures t.notifyCharacteristic == None
    ensures t.connected == s.connected && t.gattCharacteristics == s.gattCharacteristics && t.listShown == s.listShown
    ensures t.requests ==
      s.requests + (if s.notifyCharacteristic.Some? then [SetNotification(s.notifyCharacteristic.value, false)] else [])
  {
    s.(notifyCharacteristic := None, requests := DisableCurrent(s))
  }

  /** The characteristic lists of `displayGattServices`: one per service, in order. */
  function CharacteristicLists(services: seq<Service>): (lists: seq<seq<Characteristic>>)
    ensures |lists| == |services|
    ensures forall i :: 0 <= i < |services| ==> lists[i] == services[i].characteristics
  {
    seq(|services|, i requires 0 <= i < |services| => services[i].characteristics)
  }

  /**
   * `displayGattServices`: a null list changes nothing; otherwise the lists
   * are replaced wholesale and the new adapter is installed.
   */
  function DisplayGattServicesStep(s: ControlState, services: Option<seq<Service>>): (t: ControlState)
    ensures t.connected == s.connected && t.notifyCharacteristic == s.notifyCharacteristic
    ensures t.requests == s.requests
    ensures services.None? ==> t == s
    ensures services.Some? ==>
      t.listShown &&
      |t.gattCharacteristics| == |services.value| &&
      forall i :: 0 <= i < |services.value| ==> t.gattCharacteristics[i] == services.value[i].characteristics
  {
    if services.None? then s
    else s.(gattCharacteristics := CharacteristicLists(services.value), listShown := true)
  }

  /** `mGattUpdateReceiver.onReceive`. */
  function ReceiveStep(s: ControlState, event: GattEvent): (t: ControlState)
    ensures event == GattConnected ==> t.connected
    ensures event == GattDisconnected ==> !t.connected
    ensures !(event.GattConnected? || event.GattDisconnected?) ==> t.connected == s.connected
    ensures !event.ServicesDiscovered? ==> t.gattCharacteristics == s.gattCharacteristics
    ensures event == GattDisconnected ==> !t.listShown
    ensures event.ServicesDiscovered? && event.services.Some? ==> t.listShown
    ensures !(event.GattDisconnected? || event.ServicesDiscovered?) ==> t.listShown == s.listShown
    ensures t.notifyCharacteristic == s.notifyCharacteristic && t.requests == s.requests
  {
    match event
    case GattConnected => s.(connected := true)
    case GattDisconnected => s.(connected := false, listShown := false)
    case ServicesDiscovered(services) => DisplayGattServicesStep(s, services)
    case DataAvailable(_) => s
  }

  /** Items of the device screen's options menu; `HomeItem` is the up button. */
  datatype ControlMenuItem = ConnectItem | DisconnectItem | HomeItem | OtherItem

  /** `onOptionsItemSelected`: connect or disconnect through the service; going back sends nothing. */
  function OptionsItemStep(s: ControlState, deviceAddress: string, item: ControlMenuItem): (t: ControlState)
    ensures t.connected == s.connected && t.gattCharacteristics == s.gattCharacteristics && t.listShown == s.listShown
    ensures t.notifyCharacteristic == s.notifyCharacteristic
    ensures t.requests == s.requests + (match item
      case ConnectItem => [Connect(deviceAddress)]
      case DisconnectItem => [Disconnect]
      case _ => [])
    ensures EnabledBy(t.requests) == EnabledBy(s.requests)
  {
    match item
    case ConnectItem =>
      EnabledByAppend(s.requests, Connect(deviceAddress));
      s.(requests := s.requests + [Connect(deviceAddress)])
    case DisconnectItem =>
      EnabledByAppend(s.requests, Disconnect);
      s.(requests := s.requests + [Disconnect])
    case HomeItem => s
    case OtherItem => s
  }

  /** Which of the two connection items the options menu shows. */
  datatype ControlMenu = ControlMenu(connectVisible: bool, disconnectVisible: bool)

  /** `onCreateOptionsMenu`: exactly one of connect and disconnect is offered, matching the connection. */
  function ControlMenuFor(connected: bool): (m: ControlMenu)
    ensures m.connectVisible != m.disconnectVisible
    ensures m.disconnectVisible == connected
  {
    if connected then ControlMenu(false, true) else ControlMenu(true, false)
  }

  /** Everything that can happen to the device screen. */
  datatype ControlInput =
    | ChildClick(groupPosition: nat, childPosition: nat)
    | GroupClick
    | Receive(event: GattEvent)
    | OptionsItemSelected(item: ControlMenuItem)

  /** Clicks reach the screen only while the list shows rows, and only rows of the lists built with it. */
  predicate CanDeliverControl(s: ControlState, input: ControlInput) {
    && (input.ChildClick? ==> s.listShown && ValidPosition(s, input.groupPosition, input.childPosition))
    && (input.GroupClick? ==> s.listShown)
  }

  function ControlStep(s: ControlState, deviceAddress: string, input: ControlInput): ControlState
    requires CanDeliverControl(s, input)
  {
    match input
    case ChildClick(g, c) => ChildClickStep(s, g, c)
    case GroupClick => GroupClickStep(s)
    case Receive(event) => ReceiveStep(s, event)
    case OptionsItemSelected(item) => OptionsItemStep(s, deviceAddress, item)
  }

  predicate DeliverableControlTrace(s: ControlState, deviceAddress: string, inputs: seq<ControlInput>)
    decreases |inputs|
  {
    inputs == [] ||
    (CanDeliverControl(s, inputs[0]) &&
     DeliverableControlTrace(ControlStep(s, deviceAddress, inputs[0]), deviceAddress, inputs[1..]))
  }

  function RunControl(s: ControlState, deviceAddress: string, inputs: seq<ControlInput>): ControlState
    requires DeliverableControlTrace(s, deviceAddress, inputs)
    decreases |inputs|
  {
    if inputs == [] then s
    else RunControl(ControlStep(s, deviceAddress, inputs[0]), deviceAddress, inputs[1..])
  }

  // =====================================================================
  // The notification discipline
  // =====================================================================

  /** The initial state keeps the invariant. */
  lemma InitialControlStateValid()
    ensures ControlInv(InitialControlState)
  {
    assert InitialControlState.requests[..0] == [];
  }

  /** Turning off the current notification leaves none enabled, and never two on the way. */
  lemma {:induction false} DisableCurrentKeepsInv(s: ControlState)
    requires ControlInv(s)
    ensures EnabledBy(DisableCurrent(s)) == {} && AtMostOneEnabledThroughout(DisableCurrent(s))
  {
    if s.notifyCharacteristic.Some? {
      ThroughoutAppend(s.requests, SetNotification(s.notifyCharacteristic.value, false));
    }
  }

  lemma ReadKeepsNoneEnabled(log: seq<GattRequest>, ch: Characteristic)
    requires EnabledBy(log) == {} && AtMostOneEnabledThroughout(log)
    ensures EnabledBy(log + [ReadCharacteristic(ch)]) == {}
    ensures AtMostOneEnabledThroughout(log + [ReadCharacteristic(ch)])
  {
    ThroughoutAppend(log, ReadCharacteristic(ch));
  }

  lemma EnableFromNone(log: seq<GattRequest>, ch: Characteristic)
    requires EnabledBy(log) == {} && AtMostOneEnabledThroughout(log)
    ensures EnabledBy(log + [SetNotification(ch, true)]) == {ch}
    ensures AtMostOneEnabledThroughout(log + [SetNotification(ch, true)])
  {
    assert AfterRequest({}, SetNotification(ch, true)) == {ch};
    ThroughoutAppend(log, SetNotification(ch, true));
  }

  /** From a log with nothing enabled, the read and the subscription leave at most `ch` enabled. */
  lemma {:induction false} ReadThenSubscribeKeepsInv(log: seq<GattRequest>, ch: Characteristic)
    requires EnabledBy(log) == {} && AtMostOneEnabledThroughout(log)
    ensures EnabledBy(log + ReadThenSubscribe(ch)) == (if OrTest(ch.properties, PROPERTY_NOTIFY) then {ch} else {})
    ensures AtMostOneEnabledThroughout(log + ReadThenSubscribe(ch))
  {
    var afterRead := log;
    if OrTest(ch.properties, PROPERTY_READ) {
      ReadKeepsNoneEnabled(log, ch);
      afterRead := log + [ReadCharacteristic(ch)];
    }
    assert log + ReadThenSubscribe(ch) ==
      afterRead + (if OrTest(ch.properties, PROPERTY_NOTIFY) then [SetNotification(ch, true)] else []);
    if OrTest(ch.properties, PROPERTY_NOTIFY) {
      EnableFromNone(afterRead, ch);
    } else {
      assert afterRead + [] == afterRead;
    }
  }

  /** A child click keeps the invariant: the previous notification is off before the new one is on. */
  lemma {:induction false} ChildClickKeepsInv(s: ControlState, groupPosition: nat, childPosition: nat)
    requires ControlInv(s) && ValidPosition(s, groupPosition, childPosition)
    ensures ControlInv(ChildClickStep(s, groupPosition, childPosition))
  {
    DisableCurrentKeepsInv(s);
    ReadThenSubscribeKeepsInv(DisableCurrent(s), s.gattCharacteristics[groupPosition][childPosition]);
  }

  /** A group click keeps the invariant and leaves no notification enabled. */
  lemma {:induction false} GroupClickKeepsInv(s: ControlState)
    requires ControlInv(s)
    ensures ControlInv(GroupClickStep(s)) && EnabledBy(GroupClickStep(s).requests) == {}
  {
    DisableCurrentKeepsInv(s);
  }

  lemma {:induction false} OptionsItemKeepsInv(s: ControlState, deviceAddress: string, item: ControlMenuItem)
    requires ControlInv(s)
    ensures ControlInv(OptionsItemStep(s, deviceAddress, item))
  {
    var t := OptionsItemStep(s, deviceAddress, item);
    if t.requests != s.requests {
      assert t.requests == s.requests + [t.requests[|s.requests|]];
      ThroughoutAppend(s.requests, t.requests[|s.requests|]);
    }
  }

  lemma {:induction false} ControlStepKeepsInv(s: ControlState, deviceAddress: string, input: ControlInput)
    requires ControlInv(s) && CanDeliverControl(s, input)
    ensures ControlInv(ControlStep(s, deviceAddress, input))
  {
    match input
    case ChildClick(g, c) => ChildClickKeepsInv(s, g, c);
    case GroupClick => GroupClickKeepsInv(s);
    case Receive(_) =>
    case OptionsItemSelected(item) => OptionsItemKeepsInv(s, deviceAddress, item);
  }

  /**
   * Whatever the user clicks and whatever the service reports, notification
   * is never enabled on two characteristics at once.
   */
  lemma {:induction false} AtMostOneNotificationAlongTrace(s: ControlState, deviceAddress: string, inputs: seq<ControlInput>)
    requires ControlInv(s) && DeliverableControlTrace(s, deviceAddress, inputs)
    ensures ControlInv(RunControl(s, deviceAddress, inputs))
    ensures AtMostOneEnabledThroughout(RunControl(s, deviceAddress, inputs).requests)
    decreases |inputs|
  {
    if inputs != [] {
      ControlStepKeepsInv(s, deviceAddress, inputs[0]);
      AtMostOneNotificationAlongTrace(ControlStep(s, deviceAddress, inputs[0]), deviceAddress, inputs[1..]);
    }
  }

  /**
   * Since the tests use OR, a click on any characteristic with non-negative
   * properties reads it and turns its notification on, after turning off the
   * previous one.
   */
  lemma {:induction false} ChildClickAlwaysReadsAndSubscribes(s: ControlState, groupPosition: nat, childPosition: nat)
    requires ValidPosition(s, groupPosition, childPosition)
    requires SignedValue(s.gattCharacteristics[groupPosition][childPosition].properties) >= 0
    ensures var ch := s.gattCharacteristics[groupPosition][childPosition];
      var t := ChildClickStep(s, groupPosition, childPosition);
      && t.notifyCharacteristic == Some(ch)
      && (s.notifyCharacteristic.None? ==>
            t.requests == s.requests + [ReadCharacteristic(ch), SetNotification(ch, true)])
      && (s.notifyCharacteristic.Some? ==>
            t.requests == s.requests + [SetNotification(s.notifyCharacteristic.value, false),
                                        ReadCharacteristic(ch), SetNotification(ch, true)])
  {
    var ch := s.gattCharacteristics[groupPosition][childPosition];
    OrTestIffNonNegative(ch.properties, PROPERTY_READ);
    OrTestIffNonNegative(ch.properties, PROPERTY_NOTIFY);
    var added := [ReadCharacteristic(ch), SetNotification(ch, true)];
    assert ReadThenSubscribe(ch) == [ReadCharacteristic(ch)] + [SetNotification(ch, true)] == added;
    if s.notifyCharacteristic.Some? {
      var off := [SetNotification(s.notifyCharacteristic.value, false)];
      assert (s.requests + off) + added == s.requests + (off + added);
      assert off + added == [SetNotification(s.notifyCharacteristic.value, false),
                             ReadCharacteristic(ch), SetNotification(ch, true)];
    }
  }

  /** The requests of clicking X and then Y, starting with no notification on. */
  lemma {:induction false} SwitchRequests(s: ControlState, gx: nat, cx: nat, gy: nat, cy: nat)
    requires s.notifyCharacteristic == None
    requires ValidPosition(s, gx, cx) && ValidPosition(s, gy, cy)
    requires SignedValue(s.gattCharacteristics[gx][cx].properties) >= 0 && SignedValue(s.gattCharacteristics[gy][cy].properties) >= 0
    ensures var x, y := s.gattCharacteristics[gx][cx], s.gattCharacteristics[gy][cy];
      var t := ChildClickStep(ChildClickStep(s, gx, cx), gy, cy);
      t.notifyCharacteristic == Some(y) &&
      t.requests == s.requests + [ReadCharacteristic(x), SetNotification(x, true),
                                  SetNotification(x, false), ReadCharacteristic(y), SetNotification(y, true)]
  {
    var x, y := s.gattCharacteristics[gx][cx], s.gattCharacteristics[gy][cy];
    var mid := ChildClickStep(s, gx, cx);
    ChildClickAlwaysReadsAndSubscribes(s, gx, cx);
    ChildClickAlwaysReadsAndSubscribes(mid, gy, cy);
    TwoClicksLog(s.requests, mid.requests, ChildClickStep(mid, gy, cy).requests, x, y);
  }

  /** Joins the two click logs of `SwitchRequests` into one sequence; it only splits that proof to keep it cheap. */
  lemma TwoClicksLog(log: seq<GattRequest>, mid: seq<GattRequest>, after: seq<GattRequest>, x: Characteristic, y: Characteristic)
    requires mid == log + [ReadCharacteristic(x), SetNotification(x, true)]
    requires after == mid + [SetNotification(x, false), ReadCharacteristic(y), SetNotification(y, true)]
    ensures after == log + [ReadCharacteristic(x), SetNotification(x, true),
                            SetNotification(x, false), ReadCharacteristic(y), SetNotification(y, true)]
  {
    var first, second := [ReadCharacteristic(x), SetNotification(x, true)],
                         [SetNotification(x, false), ReadCharacteristic(y), SetNotification(y, true)];
    assert (log + first) + second == log + (first + second);
  }

  /**
   * Switching from X to Y: exactly one turn-off of X, placed between X's
   * turn-on and Y's, and only Y is enabled afterwards.
   */
  lemma {:induction false} SwitchNotification(s: ControlState, gx: nat, cx: nat, gy: nat, cy: nat)
    requires ControlInv(s) && s.notifyCharacteristic == None
    requires ValidPosition(s, gx, cx) && ValidPosition(s, gy, cy)
    requires SignedValue(s.gattCharacteristics[gx][cx].properties) >= 0 && SignedValue(s.gattCharacteristics[gy][cy].properties) >= 0
    ensures var x, y := s.gattCharacteristics[gx][cx], s.gattCharacteristics[gy][cy];
      var t := ChildClickStep(ChildClickStep(s, gx, cx), gy, cy);
      t.requests == s.requests + [ReadCharacteristic(x), SetNotification(x, true),
                                  SetNotification(x, false), ReadCharacteristic(y), SetNotification(y, true)] &&
      EnabledBy(t.requests) == {y}
  {
    SwitchRequests(s, gx, cx, gy, cy);
    ChildClickKeepsInv(s, gx, cx);
    ChildClickKeepsInv(ChildClickStep(s, gx, cx), gy, cy);
  }

  /**
   * A disconnect keeps the characteristic lists and the notified
   * characteristic, but `clearUI` detaches the list, so no click can reach
   * the screen until services are discovered again.
   */
  lemma DisconnectKeepsStaleCharacteristics(s: ControlState)
    ensures var t := ReceiveStep(s, GattDisconnected);
      && !t.connected && t.gattCharacteristics == s.gattCharacteristics
      && t.notifyCharacteristic == s.notifyCharacteristic && t.requests == s.requests
      && !CanDeliverControl(t, GroupClick)
      && forall g: nat, c: nat :: !CanDeliverControl(t, ChildClick(g, c))
  {
  }

  /** A discovery that installs an adapter. */
  predicate IsDiscovery(input: ControlInput) {
    input.Receive? && input.event.ServicesDiscovered? && input.event.services.Some?
  }

  /**
   * While the list is detached (at start and after a disconnect), no click
   * arrives before a discovery installs a new adapter: every click of a
   * deliverable trace comes after some discovery.
   */
  lemma {:induction false} NoClickWhileListDetached(s: ControlState, deviceAddress: string, inputs: seq<ControlInput>, k: nat)
    requires !s.listShown && DeliverableControlTrace(s, deviceAddress, inputs)
    requires k < |inputs| && (inputs[k].ChildClick? || inputs[k].GroupClick?)
    ensures exists j :: 0 <= j < k && IsDiscovery(inputs[j])
    decreases k
  {
    if IsDiscovery(inputs[0]) {
      assert k != 0;
    } else {
      var t := ControlStep(s, deviceAddress, inputs[0]);
      assert !t.listShown;
      assert k != 0;
      NoClickWhileListDetached(t, deviceAddress, inputs[1..], k - 1);
      var j :| 0 <= j < k - 1 && IsDiscovery(inputs[1..][j]);
      assert IsDiscovery(inputs[j + 1]);
    }
  }

  // =====================================================================
  // The object
  // =====================================================================

  /** `DeviceControlActivity`, once bound to its `BluetoothLeService`. */
  class DeviceControlActivity {
    const deviceAddress: string
    var connected: bool
    var gattCharacteristics: seq<seq<Characteristic>>
    var notifyCharacteristic: Option<Characteristic>
    /** Whether `mGattServicesList` has an adapter. */
    var listShown: bool
    /** Requests issued to `BluetoothLeService` so far. */
    ghost var requests: seq<GattRequest>

    ghost function State(): ControlState
      reads this
    {
      ControlState(connected, gattCharacteristics, notifyCharacteristic, listShown, requests)
    }

    ghost predicate Valid()
      reads this
    {
      ControlInv(State())
    }

    constructor (deviceAddress: string)
      ensures Valid() && this.deviceAddress == deviceAddress && State() == InitialControlState
    {
      this.deviceAddress := deviceAddress;
      connected := false;
      gattCharacteristics := [];
      notifyCharacteristic := None;
      listShown := false;
      requests := [];
      new;
      InitialControlStateValid();
    }

    /** The child-click listener; the characteristic lists are never null, so the click is always handled. */
    method OnChildClick(groupPosition: nat, childPosition: nat) returns (handled: bool)
      requires Valid() && ValidPosition(State(), groupPosition, childPosition)
      modifies this
      ensures handled
      ensures Valid() && State() == ChildClickStep(old(State()), groupPosition, childPosition)
    {
      ghost var before := State();
      var characteristic := gattCharacteristics[groupPosition][childPosition];
      if notifyCharacteristic.Some? {
        requests := requests + [SetNotification(notifyCharacteristic.value, false)];
        notifyCharacteristic := None;
      }
      ghost var afterDisable := requests;
      assert afterDisable == DisableCurrent(before);
      ghost var added: seq<GattRequest> := [];
      var charaProp := characteristic.properties;
      if OrTest(charaProp, PROPERTY_READ) {
        requests := requests + [ReadCharacteristic(characteristic)];
        added := [ReadCharacteristic(characteristic)];
      }
      if OrTest(charaProp, PROPERTY_NOTIFY) {
        notifyCharacteristic := Some(characteristic);
        requests := requests + [SetNotification(characteristic, true)];
        added := added + [SetNotification(characteristic, true)];
      }
      assert added == ReadThenSubscribe(characteristic);
      assert requests == afterDisable + added;
      assert State() == ChildClickStep(before, groupPosition, childPosition);
      ChildClickKeepsInv(before, groupPosition, childPosition);
      return true;
    }

    /** The group-click listener; it lets the list go on to expand or collapse the group. */
    method OnGroupClick() returns (handled: bool)
      requires Valid()
      modifies this
      ensures !handled
      ensures Valid() && State() == GroupClickStep(old(State()))
    {
      GroupClickKeepsInv(State());
      if notifyCharacteristic.Some? {
        requests := requests + [SetNotification(notifyCharacteristic.value, false)];
      }
      notifyCharacteristic := None;
      return false;
    }

    method OnReceive(event: GattEvent)
      requires Valid()
      modifies this
      ensures Valid() && State() == ReceiveStep(old(State()), event)
    {
      match event
      case GattConnected =>
        connected := true;
      case GattDisconnected =>
        connected := false;
        listShown := false;
      case ServicesDiscovered(services) =>
        DisplayGattServices(services);
      case DataAvailable(_) =>
    }

    /** Rebuilds the characteristic lists, service by service and characteristic by characteristic. */
    method DisplayGattServices(gattServices: Option<seq<Service>>)
      requires Valid()
      modifies this
      ensures Valid() && State() == DisplayGattServicesStep(old(State()), gattServices)
    {
      if gattServices.None? {
        return;
      }
      var services := gattServices.value;
      gattCharacteristics := [];
      var i := 0;
      while i < |services|
        invariant 0 <= i <= |services|
        invariant |gattCharacteristics| == i
        invariant forall k :: 0 <= k < i ==> gattCharacteristics[k] == services[k].characteristics
        invariant connected == old(connected) && notifyCharacteristic == old(notifyCharacteristic)
        invariant listShown == old(listShown) && requests == old(requests)
      {
        var characteristics: seq<Characteristic> := [];
        var cs := services[i].characteristics;
        var j := 0;
        while j < |cs|
          invariant 0 <= j <= |cs|
          invariant characteristics == cs[..j]
        {
          characteristics := characteristics + [cs[j]];
          j := j + 1;
        }
        assert characteristics == cs;
        gattCharacteristics := gattCharacteristics + [characteristics];
        i := i + 1;
      }
      listShown := true;
    }

    method OnOptionsItemSelected(item: ControlMenuItem) returns (handled: bool)
      requires Valid()
      modifies this
      ensures handled == (item != OtherItem)
      ensures Valid() && State() == OptionsItemStep(old(State()), deviceAddress, item)
    {
      OptionsItemKeepsInv(State(), deviceAddress, item);
      match item
      case ConnectItem =>
        requests := requests + [Connect(deviceAddress)];
        return true;
      case DisconnectItem =>
        requests := requests + [Disconnect];
        return true;
      case HomeItem =>
        return true;
      case OtherItem =>
        return false;
    }
  }
}
