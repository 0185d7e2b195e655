/** The Bluetooth Low Energy driver: scanning, the connection handshake
    (link up, optional MTU exchange, service discovery, service check), the
    pending write and read tables, and the single timeout slot shared by
    connect, write and read.

    Every answer of the Android GATT stack is a parameter or an event.  The
    stack's callbacks reach the driver only while its handle is open; the
    timer fires whenever a task is armed.  Each callback the driver is handed
    (`sendData`, `readData`, `receiveData`) gets a fresh number from `next`,
    and everything the driver reports back is appended to `out`. */
module BleClient {
  import opened Kotlin
  import opened Client
  import opened BluetoothHelper

  /** `BluetoothGattCharacteristic.WRITE_TYPE_DEFAULT`. */
  const WriteTypeDefault: int32 := 2
  /** The driver's "leave the characteristic's write type alone". */
  const WriteTypeUnset: int32 := -1

  datatype GattCharacteristic = GattCharacteristic(uuid: Uuid, properties: int32, permissions: int32, descriptors: nat)

  datatype GattService = GattService(
    uuid: Uuid,
    typeCode: int32,
    characteristics: seq<GattCharacteristic>,
    included: seq<GattService>)

  /** `bluetoothGatt`: absent, open, or closed but still referenced (an error
      or a timeout closes the handle without dropping it).  `services` is what
      the last successful discovery found. */
  datatype Gatt = NoGatt | Open(services: seq<GattService>) | Closed(services: seq<GattService>)

  /** What the armed `timeoutTask` will do when it fires. */
  datatype TimerTask = ConnectTimer | WriteTimer(data: ByteArray) | ReadTimer(uuid: Uuid)

  /** Calls into the Android stack, in order. */
  datatype NativeCall =
    | LeScanStarted
    | LeScanStopped
    | GattRequested(address: string)
    | GattClosed
    | MtuRequested(mtu: int32)
    | DiscoveryRequested
    | NotificationEnabled(uuid: Uuid)
    | DescriptorWritten(uuid: Uuid)
    | CharacteristicWriteRequested(uuid: Uuid, data: ByteArray, writeType: int32)
    | CharacteristicReadRequested(uuid: Uuid)
    | TimerCancelledForGood

  /** What the driver reports to the closures it holds. */
  datatype Out =
    | StateOut(state: ConnectState)
    | DeviceOut(device: Device)
    | SendOut(callback: nat, success: bool, data: ByteArray)
    | ReadOut(callback: nat, success: bool, value: Option<ByteArray>)
    | ReceiveOut(callback: nat, data: ByteArray)

  datatype State = State(
    sdk: nat,
    serviceUuid: Option<Uuid>,
    writeType: int32,
    gatt: Gatt,
    mtu: int32,
    discovered: bool,               // gattCallback.discoveredServices
    receiveMap: map<Uuid, nat>,      // receiveDataMap
    writeMap: map<nat, nat>,          // writeDataMap, keyed by the array's identity
    readMap: map<Uuid, nat>,          // readDataMap
    timeout: Option<TimerTask>,
    next: nat,
    out: seq<Out>,
    native: seq<NativeCall>)

  /** A fresh driver: the write type is the platform default from Android 13
      on and unset before. */
  function Init(sdk: nat, serviceUuid: Option<Uuid>): (s: State)
    ensures s.writeType == (if sdk >= VersionTiramisu then WriteTypeDefault else WriteTypeUnset)
    ensures s.gatt == NoGatt && s.timeout == None && s.out == []
  {
    State(sdk, serviceUuid, if sdk >= VersionTiramisu then WriteTypeDefault else WriteTypeUnset,
          NoGatt, 0, false, map[], map[], map[], None, 0, [], [])
  }

  function Native(s: State, c: NativeCall): State
  {
    s.(native := s.native + [c])
  }

  function Emit(s: State, o: Out): State
  {
    s.(out := s.out + [o])
  }

  // ----- Scanning -------------------------------------------------------------

  /** `startScan`: one LE scan request; nothing is reported until the
      scanner calls back. */
  function StartScan(s: State): (r: State)
    ensures r.native == s.native + [LeScanStarted]
    ensures r == s.(native := r.native)
  {
    Native(s, LeScanStarted)
  }

  /** `stopScan`: one request to stop the LE scan when there is a scanner
      to ask, and nothing else.  `scannerPresent` is whether the adapter
      exists and its `bluetoothLeScanner` is non-null; the platform returns
      null while LE is off, and then no call is made. */
  function StopScan(s: State, scannerPresent: bool): (r: State)
    ensures scannerPresent ==> r.native == s.native + [LeScanStopped]
    ensures !scannerPresent ==> r == s
    ensures r == s.(native := r.native)
  {
    if scannerPresent then Native(s, LeScanStopped) else s
  }

  /** `scanCallback.onScanResult`: devices without a name are skipped.  The
      source builds the `Device` from three values and the private type lookup
      although the constructor it reaches takes four; the model passes
      `bonded = false`. */
  function OnScanResult(s: State, address: string, name: Option<string>, typeCode: int32): (r: State)
    ensures name == None || name == Some("") ==> r == s
    ensures name.Some? && name.value != "" ==>
      r == Emit(s, DeviceOut(Device(address, name, DeviceTypeOf(typeCode), false)))
  {
    match name
    case None => s
    case Some(n) => if n == "" then s else Emit(s, DeviceOut(Device(address, name, DeviceTypeOf(typeCode), false)))
  }

  // ----- Timeout slot ---------------------------------------------------------

  /** `scheduleTimeoutTask`: cancels whatever is armed, arms `task`. */
  function Schedule(s: State, task: TimerTask): (r: State)
    ensures r.timeout == Some(task)
    ensures r == s.(timeout := Some(task))
  {
    s.(timeout := Some(task))
  }

  /** `cancelTimeoutTask`. */
  function CancelTimeout(s: State): (r: State)
    ensures r.timeout == None
    ensures r == s.(timeout := None)
  {
    s.(timeout := None)
  }

  // ----- Connection -----------------------------------------------------------

  /** `safeClose`: disconnect and close the handle if there is one; the
      reference itself stays. */
  function SafeClose(s: State): (r: State)
    ensures s.gatt == NoGatt ==> r == s
    ensures s.gatt != NoGatt ==> r == Native(s, GattClosed).(gatt := Closed(s.gatt.services))
  {
    match s.gatt
    case NoGatt => s
    case Open(services) => Native(s, GattClosed).(gatt := Closed(services))
    case Closed(services) => Native(s, GattClosed)
  }

  /** `callConnectState`: cancel the timeout, close the handle on a timeout or
      an error, then report. */
  function CallConnectState(s: State, state: ConnectState): (r: State)
    ensures r.timeout == None
    ensures r.out == s.out + [StateOut(state)]
    ensures (state == ConnectTimeout || state == ConnectError) && s.gatt != NoGatt
            ==> r.gatt == Closed(s.gatt.services) && r.native == s.native + [GattClosed]
    ensures !((state == ConnectTimeout || state == ConnectError) && s.gatt != NoGatt)
            ==> r.gatt == s.gatt && r.native == s.native
    ensures r.writeMap == s.writeMap && r.readMap == s.readMap && r.next == s.next && r.receiveMap == s.receiveMap
  {
    var s1 := CancelTimeout(s);
    var s2 := if state == ConnectTimeout || state == ConnectError then SafeClose(s1) else s1;
    Emit(s2, StateOut(state))
  }

  /** `connect(device, mtu, timeoutMillis, stateCallback)`: remember the MTU,
      report CONNECTING, arm the connect timeout, close any previous handle and
      open a new one. */
  function Connect(s: State, device: Device, mtu: int32): (r: State)
    ensures r.out == s.out + [StateOut(Connecting)]
    ensures r.timeout == Some(ConnectTimer)
    ensures r.gatt == Open([]) && r.mtu == mtu
    ensures r.native == s.native + (if s.gatt != NoGatt then [GattClosed] else []) + [GattRequested(device.address)]
  {
    var s1 := Emit(s.(mtu := mtu), StateOut(Connecting));
    var s2 := Schedule(s1, ConnectTimer);
    var s3 := SafeClose(s2);
    Native(s3, GattRequested(device.address)).(gatt := Open([]))
  }

  /** `changeMtu(mtu)`: remembers the value; asks the handle if there is one.
      `answer` is what `requestMtu` returns. */
  function ChangeMtu(s: State, mtu: int32, answer: bool): (r: (State, bool))
    ensures r.1 <==> s.gatt != NoGatt && answer
    ensures r.0.mtu == mtu
    ensures r.0.native == s.native + (if s.gatt != NoGatt then [MtuRequested(mtu)] else [])
    ensures r.0.out == s.out && r.0.gatt == s.gatt
  {
    if s.gatt == NoGatt then (s.(mtu := mtu), false)
    else (Native(s.(mtu := mtu), MtuRequested(mtu)), answer)
  }

  /** `discoverServices`: a rejected request is a connection error. */
  function DiscoverServices(s: State, answer: bool): (r: State)
    ensures answer ==> r == Native(s, DiscoveryRequested)
    ensures !answer ==> r == CallConnectState(Native(s, DiscoveryRequested), ConnectError)
  {
    var s1 := Native(s, DiscoveryRequested);
    if answer then s1 else CallConnectState(s1, ConnectError)
  }

  /** `onConnectionStateChange` with STATE_CONNECTED: an MTU request goes first
      when an MTU was given; discovery starts at once unless that request was
      accepted, in which case it waits for `onMtuChanged`. */
  function OnLinkUp(s: State, mtuAnswer: bool, discoveryAnswer: bool): (r: State)
    ensures !r.discovered && r.mtu == s.mtu
    ensures WaitsForMtu(s, mtuAnswer) ==> r.out == s.out && r.native == s.native + [MtuRequested(s.mtu)]
    ensures !WaitsForMtu(s, mtuAnswer) ==>
      && r.out == s.out + (if discoveryAnswer then [] else [StateOut(ConnectError)])
      && r.native == s.native + (if s.mtu > 0 && s.gatt != NoGatt then [MtuRequested(s.mtu)] else [])
                              + [DiscoveryRequested]
                              + (if !discoveryAnswer && s.gatt != NoGatt then [GattClosed] else [])
    ensures r.writeMap == s.writeMap && r.readMap == s.readMap && r.next == s.next
    ensures r.serviceUuid == s.serviceUuid && r.sdk == s.sdk
    ensures WaitsForMtu(s, mtuAnswer) || discoveryAnswer ==> r.gatt == s.gatt
  {
    var s1 := s.(discovered := false);
    var waitForMtu := if s1.mtu > 0 then ChangeMtu(s1, s1.mtu, mtuAnswer) else (s1, false);
    if waitForMtu.1 then waitForMtu.0 else DiscoverServices(waitForMtu.0, discoveryAnswer)
  }

  /** The link came up with an MTU to negotiate and the stack accepted the
      request: discovery waits for `onMtuChanged`. */
  predicate WaitsForMtu(s: State, mtuAnswer: bool)
  {
    s.mtu > 0 && s.gatt != NoGatt && mtuAnswer
  }

  /** `onMtuChanged`: starts discovery unless it already completed. */
  function OnMtuChanged(s: State, discoveryAnswer: bool): (r: State)
    ensures s.discovered ==> r == s
    ensures !s.discovered ==> r == DiscoverServices(s, discoveryAnswer)
  {
    if s.discovered then s else DiscoverServices(s, discoveryAnswer)
  }

  /** The first element of `xs` whose UUID is `uuid`, as `getService` and
      `getCharacteristic` search the handle's lists. */
  function FindFirst<T(==)>(xs: seq<T>, key: T -> Uuid, uuid: Uuid): (r: Option<T>)
    ensures r.Some? ==> r.value in xs && key(r.value) == uuid
    ensures r.None? <==> forall i :: 0 <= i < |xs| ==> key(xs[i]) != uuid
  {
    if |xs| == 0 then None
    else if key(xs[0]) == uuid then Some(xs[0])
    else FindFirst(xs[1..], key, uuid)
  }

  /** Of several elements with the UUID, the search returns the first. */
  lemma {:induction false} FindFirstReturnsFirst<T>(xs: seq<T>, key: T -> Uuid, uuid: Uuid)
    ensures var r := FindFirst(xs, key, uuid);
      r.Some? ==> exists i :: 0 <= i < |xs| && xs[i] == r.value && forall j :: 0 <= j < i ==> key(xs[j]) != uuid
    decreases |xs|
  {
    if |xs| > 0 && key(xs[0]) != uuid {
      var r := FindFirst(xs[1..], key, uuid);
      FindFirstReturnsFirst(xs[1..], key, uuid);
      if r.Some? {
        var i :| 0 <= i < |xs[1..]| && xs[1..][i] == r.value && forall j :: 0 <= j < i ==> key(xs[1..][j]) != uuid;
        assert xs[i + 1] == r.value && forall j :: 0 <= j < i + 1 ==> key(xs[j]) != uuid;
      }
    }
  }

  function FindService(services: seq<GattService>, uuid: Uuid): Option<GattService>
  {
    FindFirst(services, (g: GattService) => g.uuid, uuid)
  }

  function FindCharacteristic(chars: seq<GattCharacteristic>, uuid: Uuid): Option<GattCharacteristic>
  {
    FindFirst(chars, (c: GattCharacteristic) => c.uuid, uuid)
  }

  /** `onServicesDiscovered(status)`: a failed discovery is an error; otherwise
      CONNECTED, unless a service UUID is set and the handle lacks it. */
  function OnServicesDiscovered(s: State, success: bool, services: seq<GattService>): (r: State)
    requires s.gatt.Open?
    ensures r.out == s.out + [StateOut(if success && ServiceFound(s.serviceUuid, services) then Connected else ConnectError)]
    ensures r.timeout == None && r.discovered == (success || s.discovered)
    ensures success && ServiceFound(s.serviceUuid, services) ==> r.gatt == Open(services)
    ensures !(success && ServiceFound(s.serviceUuid, services)) ==> r.gatt.Closed?
    ensures r.writeMap == s.writeMap && r.readMap == s.readMap && r.next == s.next
  {
    if !success then CallConnectState(s, ConnectError)
    else
      var s1 := s.(discovered := true, gatt := Open(services));
      match s1.serviceUuid
      case None => CallConnectState(s1, Connected)
      case Some(u) =>
        if FindService(services, u).Some? then CallConnectState(s1, Connected)
        else CallConnectState(s1, ConnectError)
  }

  /** The handshake's verdict, stated independently of the driver. */
  predicate ServiceFound(serviceUuid: Option<Uuid>, services: seq<GattService>)
  {
    serviceUuid.None? || exists i :: 0 <= i < |services| && services[i].uuid == serviceUuid.value
  }

  // ----- Services -------------------------------------------------------------

  function ToCharacteristic(c: GattCharacteristic): (r: Characteristic)
    ensures r.uuid == c.uuid && r.permissions == c.permissions
    ensures forall p :: p != UnknownProperty ==> (p in r.properties <==> Bits.Bit(c.properties as int, PropertyBit(p)))
  {
    Characteristic(c.uuid, GetProperties(c.properties), c.permissions)
  }

  function ToCharacteristics(cs: seq<GattCharacteristic>): (r: seq<Characteristic>)
    ensures |r| == |cs| && forall i :: 0 <= i < |cs| ==> r[i] == ToCharacteristic(cs[i])
  {
    seq(|cs|, i requires 0 <= i < |cs| => ToCharacteristic(cs[i]))
  }

  /** An included service is listed one level deep: its own inclusions are null. */
  function ToIncluded(g: GattService): (r: Service)
    ensures r.uuid == g.uuid && r.serviceType == ServiceTypeOf(g.typeCode)
    ensures r.characteristics == Some(ToCharacteristics(g.characteristics)) && r.included == None
  {
    Service(g.uuid, ServiceTypeOf(g.typeCode), Some(ToCharacteristics(g.characteristics)), None)
  }

  function ToService(g: GattService): (r: Service)
    ensures r.uuid == g.uuid && r.serviceType == ServiceTypeOf(g.typeCode)
    ensures r.characteristics == Some(ToCharacteristics(g.characteristics))
    ensures r.included.Some? && |r.included.value| == |g.included|
    ensures forall i :: 0 <= i < |g.included| ==> r.included.value[i] == ToIncluded(g.included[i])
  {
    Service(g.uuid, ServiceTypeOf(g.typeCode), Some(ToCharacteristics(g.characteristics)),
            Some(seq(|g.included|, i requires 0 <= i < |g.included| => ToIncluded(g.included[i]))))
  }

  /** `supportedServices()`: null without a handle, else one entry per service. */
  function SupportedServices(s: State): (r: Option<seq<Service>>)
    ensures r.None? <==> s.gatt == NoGatt
    ensures r.Some? ==> |r.value| == |s.gatt.services|
    ensures r.Some? ==> forall i :: 0 <= i < |r.value| ==> r.value[i] == ToService(s.gatt.services[i])
  {
    if s.gatt == NoGatt then None
    else Some(seq(|s.gatt.services|, i requires 0 <= i < |s.gatt.services| => ToService(s.gatt.services[i])))
  }

  /** `assignService`: only the UUID is kept, and from then on the service
      lookup searches the handle for it. */
  function AssignService(s: State, service: Service): (r: State)
    ensures r == s.(serviceUuid := r.serviceUuid)
    ensures GetGattService(r).Some? <==>
      s.gatt != NoGatt && exists i :: 0 <= i < |s.gatt.services| && s.gatt.services[i].uuid == service.uuid
    ensures GetGattService(r).Some? ==> GetGattService(r).value.uuid == service.uuid
  {
    s.(serviceUuid := Some(service.uuid))
  }

  /** `getGattService`: needs a handle, a service UUID, and that service. */
  function GetGattService(s: State): (r: Option<GattService>)
    ensures r.Some? <==> s.gatt != NoGatt && s.serviceUuid.Some?
                         && exists i :: 0 <= i < |s.gatt.services| && s.gatt.services[i].uuid == s.serviceUuid.value
    ensures r.Some? ==> r.value in s.gatt.services && r.value.uuid == s.serviceUuid.value
  {
    if s.gatt == NoGatt then None
    else match s.serviceUuid
      case None => None
      case Some(u) => FindService(s.gatt.services, u)
  }

  /** Of several services with the assigned UUID, `getGattService` returns
      the first one the handle lists. */
  lemma GetGattServiceReturnsFirst(s: State)
    ensures var r := GetGattService(s);
      r.Some? ==> exists i :: 0 <= i < |s.gatt.services| && s.gatt.services[i] == r.value
                              && forall j :: 0 <= j < i ==> s.gatt.services[j].uuid != s.serviceUuid.value
  {
    if s.gatt != NoGatt && s.serviceUuid.Some? {
      FindFirstReturnsFirst(s.gatt.services, (g: GattService) => g.uuid, s.serviceUuid.value);
    }
  }

  // ----- Data -----------------------------------------------------------------

  /** `receiveData(uuid, onReceive)`: the closure is registered under `uuid`
      before the characteristic is looked up; `answer` is what
      `setCharacteristicNotification` returns.  Every descriptor of the
      characteristic is then written with ENABLE_NOTIFICATION_VALUE. */
  function ReceiveData(s: State, uuid: Uuid, answer: bool): (r: (State, bool))
    ensures GetGattService(s).None? ==> r == (s, false)
    ensures GetGattService(s).Some? ==> r.0.receiveMap == s.receiveMap[uuid := s.next] && r.0.next == s.next + 1
    ensures r.1 <==> GetGattService(s).Some?
                     && FindCharacteristic(GetGattService(s).value.characteristics, uuid).Some? && answer
    ensures r.0.out == s.out && r.0.writeMap == s.writeMap && r.0.readMap == s.readMap && r.0.timeout == s.timeout
  {
    match GetGattService(s)
    case None => (s, false)
    case Some(svc) =>
      var s1 := s.(receiveMap := s.receiveMap[uuid := s.next], next := s.next + 1);
      match FindCharacteristic(svc.characteristics, uuid)
      case None => (s1, false)
      case Some(c) =>
        var descriptorWrites := seq(c.descriptors, _ => DescriptorWritten(uuid));
        (s1.(native := s1.native + [NotificationEnabled(uuid)] + descriptorWrites), answer)
  }

  /** `callSendDataResult`: cancel the timeout, then remove-then-call. */
  function CallSendDataResult(s: State, data: ByteArray, success: bool): (r: State)
    ensures r.timeout == None
    ensures data.identity !in r.writeMap && r.writeMap == s.writeMap - {data.identity}
    ensures data.identity in s.writeMap ==> r.out == s.out + [SendOut(s.writeMap[data.identity], success, data)]
    ensures data.identity !in s.writeMap ==> r.out == s.out
    ensures r.readMap == s.readMap && r.next == s.next && r.gatt == s.gatt
    ensures r.sdk == s.sdk && r.serviceUuid == s.serviceUuid && r.receiveMap == s.receiveMap
  {
    var s1 := CancelTimeout(s);
    if data.identity in s1.writeMap then
      Emit(s1.(writeMap := s1.writeMap - {data.identity}), SendOut(s1.writeMap[data.identity], success, data))
    else s1.(writeMap := s1.writeMap - {data.identity})
  }

  /** `callReadDataResult`: cancel the timeout, then remove-then-call. */
  function CallReadDataResult(s: State, uuid: Uuid, success: bool, value: Option<ByteArray>): (r: State)
    ensures r.timeout == None
    ensures uuid !in r.readMap && r.readMap == s.readMap - {uuid}
    ensures uuid in s.readMap ==> r.out == s.out + [ReadOut(s.readMap[uuid], success, value)]
    ensures uuid !in s.readMap ==> r.out == s.out
    ensures r.writeMap == s.writeMap && r.next == s.next && r.gatt == s.gatt
    ensures r.sdk == s.sdk && r.serviceUuid == s.serviceUuid && r.receiveMap == s.receiveMap
  {
    var s1 := CancelTimeout(s);
    if uuid in s1.readMap then
      Emit(s1.(readMap := s1.readMap - {uuid}), ReadOut(s1.readMap[uuid], success, value))
    else s1.(readMap := s1.readMap - {uuid})
  }

  /** The characteristic is there, so a write or a read can reach the stack. */
  predicate CharacteristicPresent(s: State, uuid: Uuid)
  {
    GetGattService(s).Some? && FindCharacteristic(GetGattService(s).value.characteristics, uuid).Some?
  }

  /** The write went out and its outcome is left to `onCharacteristicWrite`
      (or the timer): only before Android 13, when the stack accepted it. */
  predicate WriteAwaitsCallback(s: State, uuid: Uuid, answer: bool)
  {
    CharacteristicPresent(s, uuid) && s.sdk < VersionTiramisu && answer
  }

  /** The only way `sendData` reports success synchronously: Android 13 or
      later and a SUCCESS status. */
  predicate WriteAcceptedAtOnce(s: State, uuid: Uuid, answer: bool)
  {
    CharacteristicPresent(s, uuid) && s.sdk >= VersionTiramisu && answer
  }

  /** The read went out and its outcome is left to `onCharacteristicRead`
      (or the timer). */
  predicate ReadAwaitsCallback(s: State, uuid: Uuid, answer: bool)
  {
    CharacteristicPresent(s, uuid) && answer
  }

  /** `sendData(uuid, data, timeoutMillis, callback)`.  Without a service the
      callback hears false at once; otherwise it is registered under the
      array, the write timeout is armed, and a missing characteristic or a
      rejected write completes it with false.  Before Android 13 success is
      left to `onCharacteristicWrite`; from Android 13 on the synchronous
      status decides (`answer` is true when it is SUCCESS). */
  function SendData(s: State, uuid: Uuid, data: ByteArray, answer: bool): (r: State)
    ensures r.next == s.next + 1 && r.readMap == s.readMap
    ensures r.gatt == s.gatt && r.sdk == s.sdk && r.serviceUuid == s.serviceUuid && r.receiveMap == s.receiveMap
    ensures GetGattService(s).None? ==> r == Emit(s.(next := s.next + 1), SendOut(s.next, false, data))
    ensures WriteAwaitsCallback(s, uuid, answer) ==>
      r.writeMap == s.writeMap[data.identity := s.next] && r.timeout == Some(WriteTimer(data)) && r.out == s.out
    ensures GetGattService(s).Some? && !WriteAwaitsCallback(s, uuid, answer) ==>
      && r.writeMap == s.writeMap - {data.identity} && r.timeout == None
      && r.out == s.out + [SendOut(s.next, WriteAcceptedAtOnce(s, uuid, answer), data)]
  {
    var cb := s.next;
    var s0 := s.(next := s.next + 1);
    assert GetGattService(s0) == GetGattService(s);
    match GetGattService(s0)
    case None => Emit(s0, SendOut(cb, false, data))
    case Some(svc) =>
      StartWrite(Schedule(s0.(writeMap := s0.writeMap[data.identity := cb]), WriteTimer(data)), svc, uuid, data, answer)
  }

  /** The part of `sendData` after the closure is registered under `data`
      and the timeout armed. */
  function StartWrite(s: State, svc: GattService, uuid: Uuid, data: ByteArray, answer: bool): (r: State)
    requires data.identity in s.writeMap && s.timeout == Some(WriteTimer(data))
    ensures r.next == s.next && r.readMap == s.readMap
    ensures r.gatt == s.gatt && r.sdk == s.sdk && r.serviceUuid == s.serviceUuid && r.receiveMap == s.receiveMap
    ensures FindCharacteristic(svc.characteristics, uuid).Some? && s.sdk < VersionTiramisu && answer ==>
      r.writeMap == s.writeMap && r.timeout == s.timeout && r.out == s.out
    ensures !(FindCharacteristic(svc.characteristics, uuid).Some? && s.sdk < VersionTiramisu && answer) ==>
      && r.writeMap == s.writeMap - {data.identity} && r.timeout == None
      && r.out == s.out + [SendOut(s.writeMap[data.identity],
                                   FindCharacteristic(svc.characteristics, uuid).Some? && s.sdk >= VersionTiramisu && answer,
                                   data)]
  {
    match FindCharacteristic(svc.characteristics, uuid)
    case None => CallSendDataResult(s, data, false)
    case Some(_) =>
      var s1 := Native(s, CharacteristicWriteRequested(uuid, data, s.writeType));
      if s.sdk < VersionTiramisu then
        if answer then s1 else CallSendDataResult(s1, data, false)
      else
        CallSendDataResult(s1, data, answer)
  }

  /** `readData(uuid, timeoutMillis, callback)`, the same shape as `sendData`
      keyed by the characteristic UUID; `answer` is what `readCharacteristic`
      returns. */
  function ReadData(s: State, uuid: Uuid, answer: bool): (r: State)
    ensures r.next == s.next + 1 && r.writeMap == s.writeMap
    ensures r.gatt == s.gatt && r.sdk == s.sdk && r.serviceUuid == s.serviceUuid && r.receiveMap == s.receiveMap
    ensures GetGattService(s).None? ==> r == Emit(s.(next := s.next + 1), ReadOut(s.next, false, None))
    ensures ReadAwaitsCallback(s, uuid, answer) ==>
      r.readMap == s.readMap[uuid := s.next] && r.timeout == Some(ReadTimer(uuid)) && r.out == s.out
    ensures GetGattService(s).Some? && !ReadAwaitsCallback(s, uuid, answer) ==>
      && r.readMap == s.readMap - {uuid} && r.timeout == None
      && r.out == s.out + [ReadOut(s.next, false, None)]
  {
    var cb := s.next;
    var s0 := s.(next := s.next + 1);
    assert GetGattService(s0) == GetGattService(s);
    match GetGattService(s0)
    case None => Emit(s0, ReadOut(cb, false, None))
    case Some(svc) =>
      StartRead(Schedule(s0.(readMap := s0.readMap[uuid := cb]), ReadTimer(uuid)), svc, uuid, answer)
  }

  /** The part of `readData` after the closure is registered under `uuid`
      and the timeout armed. */
  function StartRead(s: State, svc: GattService, uuid: Uuid, answer: bool): (r: State)
    requires uuid in s.readMap && s.timeout == Some(ReadTimer(uuid))
    ensures r.next == s.next && r.writeMap == s.writeMap
    ensures r.gatt == s.gatt && r.sdk == s.sdk && r.serviceUuid == s.serviceUuid && r.receiveMap == s.receiveMap
    ensures FindCharacteristic(svc.characteristics, uuid).Some? && answer ==>
      r.readMap == s.readMap && r.timeout == s.timeout && r.out == s.out
    ensures !(FindCharacteristic(svc.characteristics, uuid).Some? && answer) ==>
      && r.readMap == s.readMap - {uuid} && r.timeout == None
      && r.out == s.out + [ReadOut(s.readMap[uuid], false, None)]
  {
    match FindCharacteristic(svc.characteristics, uuid)
    case None => CallReadDataResult(s, uuid, false, None)
    case Some(_) =>
      var s1 := Native(s, CharacteristicReadRequested(uuid));
      if answer then s1 else CallReadDataResult(s1, uuid, false, None)
  }

  // ----- Teardown -------------------------------------------------------------

  /** `disconnect()`: only with a handle.  Closes and drops it, forgets the
      receive and write closures (not the read ones) and reports DISCONNECTED. */
  function Disconnect(s: State): (r: State)
    ensures s.gatt == NoGatt ==> r == s
    ensures s.gatt != NoGatt ==>
      && r.gatt == NoGatt && r.receiveMap == map[] && r.writeMap == map[] && r.readMap == s.readMap
      && r.out == s.out + [StateOut(Disconnected)] && r.timeout == None
  {
    if s.gatt == NoGatt then s
    else
      var s1 := SafeClose(s);
      CallConnectState(s1.(gatt := NoGatt, receiveMap := map[], writeMap := map[]), Disconnected)
  }

  /** `release()`: disconnect and cancel the timer for good. */
  function Release(s: State): (r: State)
    ensures r == Native(Disconnect(s), TimerCancelledForGood)
    ensures r.gatt == NoGatt && r.readMap == s.readMap
    ensures r.out == s.out + (if s.gatt != NoGatt then [StateOut(Disconnected)] else [])
    ensures r.native[|r.native| - 1] == TimerCancelledForGood
  {
    Native(Disconnect(s), TimerCancelledForGood)
  }

  // ----- Events ---------------------------------------------------------------

  datatype Event =
    | StartScanEvent
    | StopScanEvent(scannerPresent: bool)
    | ScanResult(address: string, name: Option<string>, typeCode: int32)
    | ConnectEvent(device: Device, mtu: int32)
    | ChangeMtuEvent(mtu: int32, answer: bool)
    | AssignServiceEvent(service: Service)
    | SetWriteTypeEvent(writeType: int32)
    | ReceiveDataEvent(uuid: Uuid, answer: bool)
    | SendDataEvent(uuid: Uuid, data: ByteArray, answer: bool)
    | ReadDataEvent(uuid: Uuid, answer: bool)
    | DisconnectEvent
    | ReleaseEvent
    | LinkUp(mtuAnswer: bool, discoveryAnswer: bool)          // STATE_CONNECTED
    | LinkDown                                               // STATE_DISCONNECTED
    | ServicesDiscovered(success: bool, services: seq<GattService>)
    | MtuChangedEvent(discoveryAnswer: bool)
    | CharacteristicChanged(uuid: Uuid, value: ByteArray)
    | CharacteristicWritten(value: ByteArray, success: bool)  // the value the stack hands back
    | CharacteristicRead(uuid: Uuid, success: bool, readValue: Option<ByteArray>)  // the deprecated callback may pass null
    | TimerFires

  /** A callback of the GATT stack, delivered only while the handle is open. */
  predicate IsGattCallback(e: Event)
  {
    e.LinkUp? || e.LinkDown? || e.ServicesDiscovered? || e.MtuChangedEvent?
    || e.CharacteristicChanged? || e.CharacteristicWritten? || e.CharacteristicRead?
  }

  /** `onCharacteristicWrite`: before Android 13 the stack's value completes
      the write registered under that same array; from Android 13 on the
      value is not available and the callback does nothing. */
  function OnCharacteristicWrite(s: State, value: ByteArray, success: bool): (r: State)
    ensures s.sdk >= VersionTiramisu ==> r == s
    ensures s.sdk < VersionTiramisu && value.identity in s.writeMap ==>
      r.out == s.out + [SendOut(s.writeMap[value.identity], success, value)] && value.identity !in r.writeMap
    ensures s.sdk < VersionTiramisu && value.identity !in s.writeMap ==> r.out == s.out && r.timeout == None
  {
    if s.sdk < VersionTiramisu then CallSendDataResult(s, value, success) else s
  }

  /** `onCharacteristicChanged`: the closure registered for the UUID, if any. */
  function OnCharacteristicChanged(s: State, uuid: Uuid, value: ByteArray): (r: State)
    ensures uuid in s.receiveMap ==> r == Emit(s, ReceiveOut(s.receiveMap[uuid], value))
    ensures uuid !in s.receiveMap ==> r == s
  {
    if uuid in s.receiveMap then Emit(s, ReceiveOut(s.receiveMap[uuid], value)) else s
  }

  /** The armed timeout task runs. */
  function OnTimer(s: State): (r: State)
    ensures s.timeout == None ==> r == s
    ensures r.timeout == None
    ensures s.timeout == Some(ConnectTimer) ==> r.out == s.out + [StateOut(ConnectTimeout)]
    ensures s.timeout.Some? && s.timeout.value.WriteTimer? && s.timeout.value.data.identity in s.writeMap ==>
      r.out == s.out + [SendOut(s.writeMap[s.timeout.value.data.identity], false, s.timeout.value.data)]
    ensures s.timeout.Some? && s.timeout.value.ReadTimer? && s.timeout.value.uuid in s.readMap ==>
      r.out == s.out + [ReadOut(s.readMap[s.timeout.value.uuid], false, None)]
  {
    match s.timeout
    case None => s
    case Some(ConnectTimer) => CallConnectState(s, ConnectTimeout)
    case Some(WriteTimer(data)) => CallSendDataResult(s, data, false)
    case Some(ReadTimer(uuid)) => CallReadDataResult(s, uuid, false, None)
  }

  function Step(s: State, e: Event): (r: State)
  {
    if IsGattCallback(e) && !s.gatt.Open? then s
    else match e
      case StartScanEvent => StartScan(s)
      case StopScanEvent(scannerPresent) => StopScan(s, scannerPresent)
      case ScanResult(address, name, typeCode) => OnScanResult(s, address, name, typeCode)
      case ConnectEvent(device, mtu) => Connect(s, device, mtu)
      case ChangeMtuEvent(mtu, answer) => ChangeMtu(s, mtu, answer).0
      case AssignServiceEvent(service) => AssignService(s, service)
      case SetWriteTypeEvent(w) => s.(writeType := w)
      case ReceiveDataEvent(uuid, answer) => ReceiveData(s, uuid, answer).0
      case SendDataEvent(uuid, data, answer) => SendData(s, uuid, data, answer)
      case ReadDataEvent(uuid, answer) => ReadData(s, uuid, answer)
      case DisconnectEvent => Disconnect(s)
      case ReleaseEvent => Release(s)
      case LinkUp(mtuAnswer, discoveryAnswer) => OnLinkUp(s, mtuAnswer, discoveryAnswer)
      case LinkDown => Disconnect(s)
      case ServicesDiscovered(success, services) => OnServicesDiscovered(s, success, services)
      case MtuChangedEvent(discoveryAnswer) => OnMtuChanged(s, discoveryAnswer)
      case CharacteristicChanged(uuid, value) => OnCharacteristicChanged(s, uuid, value)
      case CharacteristicWritten(value, success) => OnCharacteristicWrite(s, value, success)
      case CharacteristicRead(uuid, success, value) => CallReadDataResult(s, uuid, success, value)
      case TimerFires => OnTimer(s)
  }

  function Run(s: State, events: seq<Event>): (r: State)
    decreases |events|
  {
    if |events| == 0 then s else Run(Step(s, events[0]), events[1..])
  }

  // ----- Each callback completes at most once ---------------------------------

  /** How many write results callback `c` has heard. */
  function SendCount(out: seq<Out>, c: nat): nat
    decreases |out|
  {
    if |out| == 0 then 0
    else SendCount(out[..|out| - 1], c) + (if out[|out| - 1].SendOut? && out[|out| - 1].callback == c then 1 else 0)
  }

  /** How many read results callback `c` has heard. */
  function ReadCount(out: seq<Out>, c: nat): nat
    decreases |out|
  {
    if |out| == 0 then 0
    else ReadCount(out[..|out| - 1], c) + (if out[|out| - 1].ReadOut? && out[|out| - 1].callback == c then 1 else 0)
  }

  lemma CountSnoc(out: seq<Out>, o: Out, c: nat)
    ensures SendCount(out + [o], c) == SendCount(out, c) + (if o.SendOut? && o.callback == c then 1 else 0)
    ensures ReadCount(out + [o], c) == ReadCount(out, c) + (if o.ReadOut? && o.callback == c then 1 else 0)
  {
    assert (out + [o])[..|out|] == out;
  }

  /** The bookkeeping behind remove-then-call: no callback has heard more than
      one result, numbers not yet handed out have heard none, and every
      pending entry holds its own number, which has heard nothing yet. */
  ghost predicate Ledger(out: seq<Out>, writeMap: map<nat, nat>, readMap: map<Uuid, nat>, next: nat)
  {
    && (forall c :: SendCount(out, c) <= 1 && ReadCount(out, c) <= 1)
    && (forall c :: c >= next ==> SendCount(out, c) == 0 && ReadCount(out, c) == 0)
    && (forall k :: k in writeMap ==> writeMap[k] < next && SendCount(out, writeMap[k]) == 0)
    && (forall k, k' :: k in writeMap && k' in writeMap && writeMap[k] == writeMap[k'] ==> k == k')
    && (forall k :: k in readMap ==> readMap[k] < next && ReadCount(out, readMap[k]) == 0)
    && (forall k, k' :: k in readMap && k' in readMap && readMap[k] == readMap[k'] ==> k == k')
  }

  ghost predicate Inv(s: State)
  {
    Ledger(s.out, s.writeMap, s.readMap, s.next)
  }

  lemma LedgerOther(out: seq<Out>, w: map<nat, nat>, rm: map<Uuid, nat>, n: nat, o: Out)
    requires Ledger(out, w, rm, n) && !o.SendOut? && !o.ReadOut?
    ensures Ledger(out + [o], w, rm, n)
  {
    forall c ensures SendCount(out + [o], c) == SendCount(out, c) && ReadCount(out + [o], c) == ReadCount(out, c) {
      CountSnoc(out, o, c);
    }
  }

  lemma LedgerForget(out: seq<Out>, w: map<nat, nat>, rm: map<Uuid, nat>, n: nat, w': map<nat, nat>)
    requires Ledger(out, w, rm, n)
    requires forall k :: k in w' ==> k in w && w'[k] == w[k]
    ensures Ledger(out, w', rm, n)
  {
  }

  lemma LedgerForgetRead(out: seq<Out>, w: map<nat, nat>, rm: map<Uuid, nat>, n: nat, rm': map<Uuid, nat>)
    requires Ledger(out, w, rm, n)
    requires forall k :: k in rm' ==> k in rm && rm'[k] == rm[k]
    ensures Ledger(out, w, rm', n)
  {
  }

  lemma LedgerCompleteWrite(out: seq<Out>, w: map<nat, nat>, rm: map<Uuid, nat>, n: nat, data: ByteArray, success: bool)
    requires Ledger(out, w, rm, n) && data.identity in w
    ensures Ledger(out + [SendOut(w[data.identity], success, data)], w - {data.identity}, rm, n)
  {
    var o := SendOut(w[data.identity], success, data);
    forall c ensures SendCount(out + [o], c) == SendCount(out, c) + (if c == w[data.identity] then 1 else 0)
                  && ReadCount(out + [o], c) == ReadCount(out, c) {
      CountSnoc(out, o, c);
    }
  }

  lemma LedgerCompleteRead(out: seq<Out>, w: map<nat, nat>, rm: map<Uuid, nat>, n: nat, uuid: Uuid, success: bool, value: Option<ByteArray>)
    requires Ledger(out, w, rm, n) && uuid in rm
    ensures Ledger(out + [ReadOut(rm[uuid], success, value)], w, rm - {uuid}, n)
  {
    var o := ReadOut(rm[uuid], success, value);
    forall c ensures ReadCount(out + [o], c) == ReadCount(out, c) + (if c == rm[uuid] then 1 else 0)
                  && SendCount(out + [o], c) == SendCount(out, c) {
      CountSnoc(out, o, c);
    }
  }

  /** A number just handed out answers at once. */
  lemma LedgerFresh(out: seq<Out>, w: map<nat, nat>, rm: map<Uuid, nat>, n: nat, o: Out)
    requires Ledger(out, w, rm, n) && (o.SendOut? || o.ReadOut?) && o.callback == n
    ensures Ledger(out + [o], w, rm, n + 1)
  {
    forall c ensures SendCount(out + [o], c) == SendCount(out, c) + (if o.SendOut? && c == n then 1 else 0)
                  && ReadCount(out + [o], c) == ReadCount(out, c) + (if o.ReadOut? && c == n then 1 else 0) {
      CountSnoc(out, o, c);
    }
  }

  lemma LedgerRegisterWrite(out: seq<Out>, w: map<nat, nat>, rm: map<Uuid, nat>, n: nat, data: ByteArray)
    requires Ledger(out, w, rm, n)
    ensures Ledger(out, w[data.identity := n], rm, n + 1)
  {
  }

  lemma LedgerRegisterRead(out: seq<Out>, w: map<nat, nat>, rm: map<Uuid, nat>, n: nat, uuid: Uuid)
    requires Ledger(out, w, rm, n)
    ensures Ledger(out, w, rm[uuid := n], n + 1)
  {
  }

  lemma CallSendKeeps(s: State, data: ByteArray, success: bool)
    requires Inv(s)
    ensures Inv(CallSendDataResult(s, data, success))
  {
    if data.identity in s.writeMap {
      LedgerCompleteWrite(s.out, s.writeMap, s.readMap, s.next, data, success);
    } else {
      assert s.writeMap - {data.identity} == s.writeMap;
    }
  }

  lemma CallReadKeeps(s: State, uuid: Uuid, success: bool, value: Option<ByteArray>)
    requires Inv(s)
    ensures Inv(CallReadDataResult(s, uuid, success, value))
  {
    if uuid in s.readMap {
      LedgerCompleteRead(s.out, s.writeMap, s.readMap, s.next, uuid, success, value);
    } else {
      assert s.readMap - {uuid} == s.readMap;
    }
  }

  lemma CallConnectStateKeeps(s: State, state: ConnectState)
    requires Inv(s)
    ensures Inv(CallConnectState(s, state))
  {
    LedgerOther(s.out, s.writeMap, s.readMap, s.next, StateOut(state));
  }

  lemma SendDataKeeps(s: State, uuid: Uuid, data: ByteArray, answer: bool)
    requires Inv(s)
    ensures Inv(SendData(s, uuid, data, answer))
  {
    if GetGattService(s).None? {
      LedgerFresh(s.out, s.writeMap, s.readMap, s.next, SendOut(s.next, false, data));
    } else if WriteAwaitsCallback(s, uuid, answer) {
      LedgerRegisterWrite(s.out, s.writeMap, s.readMap, s.next, data);
    } else {
      LedgerForget(s.out, s.writeMap, s.readMap, s.next, s.writeMap - {data.identity});
      LedgerFresh(s.out, s.writeMap - {data.identity}, s.readMap, s.next, SendOut(s.next, WriteAcceptedAtOnce(s, uuid, answer), data));
    }
  }

  lemma ReadDataKeeps(s: State, uuid: Uuid, answer: bool)
    requires Inv(s)
    ensures Inv(ReadData(s, uuid, answer))
  {
    if GetGattService(s).None? {
      LedgerFresh(s.out, s.writeMap, s.readMap, s.next, ReadOut(s.next, false, None));
    } else if ReadAwaitsCallback(s, uuid, answer) {
      LedgerRegisterRead(s.out, s.writeMap, s.readMap, s.next, uuid);
    } else {
      LedgerForgetRead(s.out, s.writeMap, s.readMap, s.next, s.readMap - {uuid});
      LedgerFresh(s.out, s.writeMap, s.readMap - {uuid}, s.next, ReadOut(s.next, false, None));
    }
  }

  lemma DisconnectKeeps(s: State)
    requires Inv(s)
    ensures Inv(Disconnect(s))
  {
    if s.gatt != NoGatt {
      var s1 := SafeClose(s);
      LedgerForget(s1.out, s1.writeMap, s1.readMap, s1.next, map[]);
      CallConnectStateKeeps(s1.(gatt := NoGatt, receiveMap := map[], writeMap := map[]), Disconnected);
    }
  }

  lemma OnLinkUpKeeps(s: State, mtuAnswer: bool, discoveryAnswer: bool)
    requires Inv(s)
    ensures Inv(OnLinkUp(s, mtuAnswer, discoveryAnswer))
  {
    if !WaitsForMtu(s, mtuAnswer) && !discoveryAnswer {
      LedgerOther(s.out, s.writeMap, s.readMap, s.next, StateOut(ConnectError));
    }
  }

  lemma OnTimerKeeps(s: State)
    requires Inv(s)
    ensures Inv(OnTimer(s))
  {
    match s.timeout
    case None =>
    case Some(ConnectTimer) => CallConnectStateKeeps(s, ConnectTimeout);
    case Some(WriteTimer(data)) => CallSendKeeps(s, data, false);
    case Some(ReadTimer(uuid)) => CallReadKeeps(s, uuid, false, None);
  }

  /** The application's calls keep the ledger. */
  lemma CallEventKeeps(s: State, e: Event)
    requires Inv(s) && !IsGattCallback(e) && !e.TimerFires?
    ensures Inv(Step(s, e))
  {
    if e.SendDataEvent? || e.ReadDataEvent? || e.DisconnectEvent? || e.ReleaseEvent? {
      TransferCallKeeps(s, e);
    } else if e.ScanResult? {
      LedgerOther(s.out, s.writeMap, s.readMap, s.next, DeviceOut(Device(e.address, e.name, DeviceTypeOf(e.typeCode), false)));
    } else if e.ConnectEvent? {
      LedgerOther(s.out, s.writeMap, s.readMap, s.next, StateOut(Connecting));
    }
  }

  lemma TransferCallKeeps(s: State, e: Event)
    requires Inv(s) && (e.SendDataEvent? || e.ReadDataEvent? || e.DisconnectEvent? || e.ReleaseEvent?)
    ensures Inv(Step(s, e))
  {
    if e.SendDataEvent? {
      SendDataKeeps(s, e.uuid, e.data, e.answer);
    } else if e.ReadDataEvent? {
      ReadDataKeeps(s, e.uuid, e.answer);
    } else {
      DisconnectKeeps(s);
    }
  }

  /** The stack's callbacks and the timer keep the ledger. */
  lemma StackEventKeeps(s: State, e: Event)
    requires Inv(s) && (IsGattCallback(e) || e.TimerFires?)
    ensures Inv(Step(s, e))
  {
    if IsGattCallback(e) && !s.gatt.Open? {
    } else if e.TimerFires? || e.LinkUp? || e.LinkDown? || e.ServicesDiscovered? {
      LinkEventKeeps(s, e);
    } else {
      DataEventKeeps(s, e);
    }
  }

  lemma LinkEventKeeps(s: State, e: Event)
    requires Inv(s) && (e.TimerFires? || e.LinkUp? || e.LinkDown? || e.ServicesDiscovered?)
    requires !e.TimerFires? ==> s.gatt.Open?
    ensures Inv(Step(s, e))
  {
    if e.TimerFires? {
      OnTimerKeeps(s);
    } else if e.LinkUp? {
      OnLinkUpKeeps(s, e.mtuAnswer, e.discoveryAnswer);
    } else if e.LinkDown? {
      DisconnectKeeps(s);
    } else {
      LedgerOther(s.out, s.writeMap, s.readMap, s.next,
                  StateOut(if e.success && ServiceFound(s.serviceUuid, e.services) then Connected else ConnectError));
    }
  }

  lemma DataEventKeeps(s: State, e: Event)
    requires Inv(s) && s.gatt.Open?
    requires e.MtuChangedEvent? || e.CharacteristicChanged? || e.CharacteristicWritten? || e.CharacteristicRead?
    ensures Inv(Step(s, e))
  {
    if e.CharacteristicWritten? || e.CharacteristicRead? {
      AnswerEventKeeps(s, e);
    } else if e.MtuChangedEvent? {
      if !s.discovered && !e.discoveryAnswer {
        CallConnectStateKeeps(Native(s, DiscoveryRequested), ConnectError);
      }
    } else if e.uuid in s.receiveMap {
      LedgerOther(s.out, s.writeMap, s.readMap, s.next, ReceiveOut(s.receiveMap[e.uuid], e.value));
    }
  }

  lemma AnswerEventKeeps(s: State, e: Event)
    requires Inv(s) && s.gatt.Open? && (e.CharacteristicWritten? || e.CharacteristicRead?)
    ensures Inv(Step(s, e))
  {
    if e.CharacteristicWritten? {
      if s.sdk < VersionTiramisu {
        CallSendKeeps(s, e.value, e.success);
      }
    } else {
      CallReadKeeps(s, e.uuid, e.success, e.readValue);
    }
  }

  /** Every event keeps the ledger. */
  lemma StepKeeps(s: State, e: Event)
    requires Inv(s)
    ensures Inv(Step(s, e))
  {
    if IsGattCallback(e) || e.TimerFires? {
      StackEventKeeps(s, e);
    } else {
      CallEventKeeps(s, e);
    }
  }

  lemma {:induction false} RunKeeps(s: State, events: seq<Event>)
    requires Inv(s)
    ensures Inv(Run(s, events))
    decreases |events|
  {
    if |events| > 0 {
      StepKeeps(s, events[0]);
      RunKeeps(Step(s, events[0]), events[1..]);
    }
  }

  /** Whatever the stack, the timer and the caller do, no write or read
      callback hears its result twice, and only callbacks actually handed to
      the driver hear anything: the entry is removed before it is called, so
      a timeout and a late GATT answer cannot both reach it. */
  lemma EachCallbackAnsweredAtMostOnce(sdk: nat, serviceUuid: Option<Uuid>, events: seq<Event>)
    ensures var r := Run(Init(sdk, serviceUuid), events);
      && (forall c :: SendCount(r.out, c) <= 1 && ReadCount(r.out, c) <= 1)
      && (forall c :: c >= r.next ==> SendCount(r.out, c) == 0 && ReadCount(r.out, c) == 0)
  {
    RunKeeps(Init(sdk, serviceUuid), events);
  }

  // ----- Scenarios ------------------------------------------------------------

  /** Before Android 13 an open handle's write callback is `callSendDataResult`. */
  lemma StepWritten(s: State, value: ByteArray, success: bool)
    requires s.gatt.Open? && s.sdk < VersionTiramisu
    ensures Step(s, CharacteristicWritten(value, success)) == CallSendDataResult(s, value, success)
  {
  }

  lemma StepTimer(s: State)
    ensures Step(s, TimerFires) == OnTimer(s)
  {
  }

  lemma StepConnect(s: State, device: Device, mtu: int32)
    ensures Step(s, ConnectEvent(device, mtu)) == Connect(s, device, mtu)
  {
  }

  lemma StepLinkUp(s: State, mtuAnswer: bool, discoveryAnswer: bool)
    requires s.gatt.Open?
    ensures Step(s, LinkUp(mtuAnswer, discoveryAnswer)) == OnLinkUp(s, mtuAnswer, discoveryAnswer)
  {
  }

  lemma StepMtuChanged(s: State, discoveryAnswer: bool)
    requires s.gatt.Open?
    ensures Step(s, MtuChangedEvent(discoveryAnswer)) == OnMtuChanged(s, discoveryAnswer)
  {
  }

  lemma StepDiscovered(s: State, success: bool, services: seq<GattService>)
    requires s.gatt.Open?
    ensures Step(s, ServicesDiscovered(success, services)) == OnServicesDiscovered(s, success, services)
  {
  }

  /** A closed or absent handle hears nothing from the stack. */
  lemma StepWithoutHandle(s: State, e: Event)
    requires IsGattCallback(e) && !s.gatt.Open?
    ensures Step(s, e) == s
  {
  }

  /** With nothing armed the timer has nothing to run. */
  lemma StepTimerIdle(s: State)
    requires s.timeout == None
    ensures Step(s, TimerFires) == s
  {
  }

  /** With an MTU: the link comes up, the MTU request goes out and discovery
      waits for `onMtuChanged`; discovery decides CONNECTED or CONNECT_ERROR
      by the service check; a late `onMtuChanged` afterwards changes nothing. */
  lemma HandshakeWithMtu(s: State, device: Device, mtu: int32, services: seq<GattService>)
    requires mtu > 0
    ensures var c := Step(s, ConnectEvent(device, mtu));
            var l := Step(c, LinkUp(true, true));
            var m := Step(l, MtuChangedEvent(true));
            var d := Step(m, ServicesDiscovered(true, services));
            && l.out == c.out && l.native == c.native + [MtuRequested(mtu)]
            && m.out == c.out && m.native == l.native + [DiscoveryRequested]
            && d.out == s.out + [StateOut(Connecting),
                                 StateOut(if ServiceFound(s.serviceUuid, services) then Connected else ConnectError)]
            && d.timeout == None
            && (ServiceFound(s.serviceUuid, services) <==> d.gatt == Open(services))
            && Step(d, MtuChangedEvent(true)) == d
  {
    StepConnect(s, device, mtu);
    var c := Connect(s, device, mtu);
    StepLinkUp(c, true, true);
    assert WaitsForMtu(c, true);
    var l := OnLinkUp(c, true, true);
    StepMtuChanged(l, true);
    var m := OnMtuChanged(l, true);
    StepDiscovered(m, true, services);
    var d := OnServicesDiscovered(m, true, services);
    if d.gatt.Open? {
      StepMtuChanged(d, true);
    } else {
      StepWithoutHandle(d, MtuChangedEvent(true));
    }
  }

  /** Without an MTU, or when the stack refuses the MTU request, discovery
      starts as soon as the link is up. */
  lemma HandshakeWithoutMtuWait(s: State, device: Device, mtu: int32, mtuAnswer: bool, services: seq<GattService>)
    requires mtu <= 0 || !mtuAnswer
    ensures var c := Step(s, ConnectEvent(device, mtu));
            var l := Step(c, LinkUp(mtuAnswer, true));
            var d := Step(l, ServicesDiscovered(true, services));
            && l.out == c.out
            && l.native == c.native + (if mtu > 0 then [MtuRequested(mtu)] else []) + [DiscoveryRequested]
            && d.out == s.out + [StateOut(Connecting),
                                 StateOut(if ServiceFound(s.serviceUuid, services) then Connected else ConnectError)]
  {
    StepConnect(s, device, mtu);
    var c := Connect(s, device, mtu);
    assert !WaitsForMtu(c, mtuAnswer);
    StepLinkUp(c, mtuAnswer, true);
    var l := OnLinkUp(c, mtuAnswer, true);
    StepDiscovered(l, true, services);
  }

  /** The connect timeout: reported after CONNECTING, the handle is closed,
      and the stack's callbacks no longer reach the driver. */
  lemma ConnectTimesOut(s: State, device: Device, mtu: int32, mtuAnswer: bool, discoveryAnswer: bool)
    ensures var t := Step(Step(s, ConnectEvent(device, mtu)), TimerFires);
            && t.out == s.out + [StateOut(Connecting), StateOut(ConnectTimeout)]
            && t.gatt == Closed([]) && t.timeout == None
            && Step(t, LinkUp(mtuAnswer, discoveryAnswer)) == t
  {
    StepConnect(s, device, mtu);
    var c := Connect(s, device, mtu);
    StepTimer(c);
    StepWithoutHandle(OnTimer(c), LinkUp(mtuAnswer, discoveryAnswer));
  }

  /** A pre-Android-13 write whose timer fires first: the callback hears
      false, and the late `onCharacteristicWrite` with that same array,
      whatever it holds by then, finds nothing to call. */
  lemma WriteTimerBeatsCallback(s: State, uuid: Uuid, data: ByteArray, value: ByteArray, success: bool)
    requires s.gatt.Open? && WriteAwaitsCallback(s, uuid, true) && value.identity == data.identity
    ensures var w := SendData(s, uuid, data, true);
            var t := Step(w, TimerFires);
            && t.out == s.out + [SendOut(s.next, false, data)]
            && Step(t, CharacteristicWritten(value, success)).out == t.out
  {
    var w := SendData(s, uuid, data, true);
    StepTimer(w);
    var t := CallSendDataResult(w, data, false);
    StepWritten(t, value, success);
  }

  /** The same race the other way: the stack hands the written array back
      first (its contents need not match what was sent, only the object
      counts), which completes the write and also disarms the timer. */
  lemma WriteCallbackBeatsTimer(s: State, uuid: Uuid, data: ByteArray, value: ByteArray, success: bool)
    requires s.gatt.Open? && WriteAwaitsCallback(s, uuid, true) && value.identity == data.identity
    ensures var w := SendData(s, uuid, data, true);
            var c := Step(w, CharacteristicWritten(value, success));
            && c.out == s.out + [SendOut(s.next, success, value)]
            && c.timeout == None
            && Step(c, TimerFires) == c
  {
    var w := SendData(s, uuid, data, true);
    StepWritten(w, value, success);
    StepTimerIdle(CallSendDataResult(w, value, success));
  }

  /** The stack hands back a different array object than the one written,
      even one with equal contents: nothing is called, yet the timer is
      cancelled all the same, so the write stays pending with no way left
      to complete. */
  lemma ForeignArrayStrandsWrite(s: State, uuid: Uuid, data: ByteArray, value: ByteArray, success: bool)
    requires s.gatt.Open? && WriteAwaitsCallback(s, uuid, true)
    requires value.identity != data.identity && value.identity !in s.writeMap
    ensures var w := SendData(s, uuid, data, true);
            var c := Step(w, CharacteristicWritten(value, success));
            && c.out == s.out && data.identity in c.writeMap && c.timeout == None
            && Step(c, TimerFires) == c
  {
    var w := SendData(s, uuid, data, true);
    StepWritten(w, value, success);
    var c := CallSendDataResult(w, value, success);
    assert c.writeMap == w.writeMap - {value.identity};
    StepTimerIdle(c);
  }

  /** From Android 13 on the synchronous status decides: the callback hears
      it at once and the later `onCharacteristicWrite` is ignored. */
  lemma ModernWriteDecidedAtOnce(s: State, uuid: Uuid, data: ByteArray, answer: bool, value: ByteArray, success: bool)
    requires s.sdk >= VersionTiramisu && CharacteristicPresent(s, uuid)
    ensures var w := SendData(s, uuid, data, answer);
            && w.out == s.out + [SendOut(s.next, answer, data)]
            && data.identity !in w.writeMap && w.timeout == None
            && Step(w, CharacteristicWritten(value, success)).out == w.out
  {
  }

  /** Sending the same array object again before the first write completes,
      refilled with other contents or not, replaces the first callback: the
      stack's answer goes to the second one, and the first never hears a
      result. */
  lemma ResentArrayOrphansFirstCallback(s: State, uuid: Uuid, first: ByteArray, second: ByteArray, success: bool)
    requires Inv(s) && s.gatt.Open? && WriteAwaitsCallback(s, uuid, true) && first.identity == second.identity
    ensures var w2 := SendData(SendData(s, uuid, first, true), uuid, second, true);
            && w2.writeMap[first.identity] == s.next + 1
            && (forall k :: k in w2.writeMap ==> w2.writeMap[k] != s.next)
            && Step(w2, CharacteristicWritten(first, success)).out == s.out + [SendOut(s.next + 1, success, first)]
  {
    var w1 := SendData(s, uuid, first, true);
    assert GetGattService(w1) == GetGattService(s);
    assert WriteAwaitsCallback(w1, uuid, true);
    var w2 := SendData(w1, uuid, second, true);
    StepWritten(w2, first, success);
  }

  /** `disconnect` forgets receive and write closures but not pending reads,
      and the timer it cancels was the read's only way out: after it, no
      event of the timer or the stack completes the read. */
  lemma DisconnectStrandsPendingRead(s: State, uuid: Uuid, success: bool, value: Option<ByteArray>)
    requires s.gatt != NoGatt && uuid in s.readMap
    ensures var d := Disconnect(s);
            && d.readMap[uuid] == s.readMap[uuid]
            && Step(d, TimerFires) == d
            && Step(d, CharacteristicRead(uuid, success, value)) == d
  {
  }

  /** Disconnecting twice reports DISCONNECTED once. */
  lemma DisconnectIdempotent(s: State)
    ensures Disconnect(Disconnect(s)) == Disconnect(s)
    ensures s.gatt != NoGatt ==> Disconnect(Disconnect(s)).out == s.out + [StateOut(Disconnected)]
  {
  }

  /** `receiveData` registers the closure before looking the characteristic
      up, so even when it answers false, later notifications for that UUID
      reach the closure. */
  lemma ReceiveRegistersFirst(s: State, uuid: Uuid, answer: bool, value: ByteArray)
    requires GetGattService(s).Some? && !CharacteristicPresent(s, uuid)
    ensures var (r, ok) := ReceiveData(s, uuid, answer);
            && !ok
            && OnCharacteristicChanged(r, uuid, value).out == s.out + [ReceiveOut(s.next, value)]
  {
  }
}
