/** The `BluetoothClient` facade: it checks the adapter state, forwards every
    operation to the transport driver, and runs the driver's answers through
    its serial handler, adding reconnect, resend and reread policies on top.

    The model is one interleaved trace of events: an application call, the
    handler thread running its oldest ready task, a delayed post coming due,
    or the driver invoking one of the closures the facade handed it.  Each
    event is atomic.  The driver is seen only through the calls the facade
    makes (`calls`) and the answers it gives back (events); what the
    application sees is `outputs`. */
module BluetoothClient {
  import opened Kotlin
  import opened Client
  import opened BluetoothHelper
  import opened RetryPolicy
  import Handler

  /** The arguments of a `connect` call; a reconnect repeats them. */
  datatype ConnectRequest = ConnectRequest(device: Device, mtu: int32, timeoutMillis: int, reconnectCount: int32)

  /** The arguments of a `sendData` call. */
  datatype SendRequest = SendRequest(uuid: Option<Uuid>, data: ByteArray, timeoutMillis: int, resendCount: int32)

  /** The arguments of a `readData` call. */
  datatype ReadRequest = ReadRequest(uuid: Option<Uuid>, timeoutMillis: int, rereadCount: int32)

  /** A request together with the number of the attempt that carries it
      (0 for the first, 1 for the first retry, ...). */
  datatype Attempt<R> = Attempt(request: R, attempt: nat)

  /** A closure posted to the handler. */
  datatype Task =
    | DeliverState(state: ConnectState)     // callConnectState
    | ConnectTask(connect: ConnectRequest)  // connect: the driver call itself
    | DeliverDevice(device: Device)         // startScan: one scanned device
    | StopScanTask                          // startScan: the delayed ::stopScan
    | SendTask(send: Attempt<SendRequest>)  // sendData: the driver call itself
    | ReadTask(read: Attempt<ReadRequest>)  // readData: the driver call itself
    | RequestPermissionsTask                // checkState on NO_PERMISSIONS
    | SwitchOnTask                          // checkState on DISABLE: switch(true)
    | DeliverData(data: ByteArray)          // receiveData: one received packet

  /** A call into the transport driver. */
  datatype DriverCall =
    | StartScanCall
    | StopScanCall
    | ConnectCall(connect: ConnectRequest)
    | ChangeMtuCall(mtu: int32)
    | AssignServiceCall(service: Service)
    | WriteTypeCall(writeType: int32)
    | ReceiveCall(uuid: Option<Uuid>)
    | SendCall(uuid: Option<Uuid>, data: ByteArray, timeoutMillis: int)
    | ReadCall(uuid: Option<Uuid>, timeoutMillis: int)
    | DisconnectCall
    | ReleaseCall

  /** What the application observes through its callbacks, and the platform
      requests the facade makes on its behalf. */
  datatype Output =
    | StateDelivered(state: ConnectState)
    | DeviceDelivered(device: Device)
    | ScanEnded
    | SendResult(data: ByteArray, success: bool)
    | ReadResult(success: bool, value: Option<ByteArray>)
    | DataDelivered(data: ByteArray)
    | PermissionsRequested
    | AdapterSwitched(enable: bool)
    | TurnOnNotified
    | TurnOffNotified
    | NullReadThrown                          // the read closure threw on a success without data

  datatype State = State(
    platform: Platform,
    policy: Policy,                          // drivingDisconnect, curReconnectCount
    handler: Handler.Queue<Task>,
    onEndScan: bool,                         // an end-of-scan callback is set
    scanCallback: bool,                      // the driver holds startScan's device closure
    stateCallback: Option<ConnectRequest>,   // the driver holds this connect's state closure
    sendCallbacks: seq<Attempt<SendRequest>>,  // closures handed to the driver's sendData
    readCallbacks: seq<Attempt<ReadRequest>>,  // closures handed to the driver's readData
    receiveCallback: bool,                   // the driver was handed receiveData's closure
    switchReceiver: bool,                    // the adapter on/off receiver is registered
    switchListeners: bool,                   // setSwitchReceive was called
    calls: seq<DriverCall>,
    outputs: seq<Output>)

  /** The object right after construction: the switch receiver is registered. */
  function Init(platform: Platform): (s: State)
    ensures s.switchReceiver && s.handler == Handler.Empty()
    ensures s.calls == [] && s.outputs == []
  {
    State(platform, Policy(false, 0), Handler.Empty(), false, false, None, [], [], false, true, false, [], [])
  }

  // ----- Adapter checks -------------------------------------------------------

  /** `checkState(isNext = true)` as `checkValid` calls it: the helper's check
      without requesting permissions, then a posted permission request on
      NO_PERMISSIONS or a posted `switch(true)` on DISABLE.  The helper never
      answers LOCATION_DISABLE, so the branch that opens the location
      settings cannot run. */
  function CheckValid(s: State): (r: (State, bool))
    ensures r.1 <==> s.platform.adapterPresent && AllGranted(s.platform) && s.platform.adapterEnabled
    ensures r.0 == s.(handler := r.0.handler)
    ensures r.0.handler.delayed == s.handler.delayed
    ensures s.platform.adapterPresent && !AllGranted(s.platform)
            ==> r.0.handler.ready == s.handler.ready + [RequestPermissionsTask]
    ensures s.platform.adapterPresent && AllGranted(s.platform) && !s.platform.adapterEnabled
            ==> r.0.handler.ready == s.handler.ready + [SwitchOnTask]
    ensures r.1 || !s.platform.adapterPresent ==> r.0 == s
  {
    var st := CheckState(s.platform, false).state;
    if st == NoPermissions then (s.(handler := Handler.Post(s.handler, RequestPermissionsTask)), false)
    else if st == Disable then (s.(handler := Handler.Post(s.handler, SwitchOnTask)), false)
    else (s, st == Enable)
  }

  /** `switch(enable)`: nothing without an adapter; otherwise the helper's
      `switchBluetooth` with the permission check.  `adapterResult` is what
      the adapter's enable()/disable() answers. */
  function Switch(s: State, enable: bool, adapterResult: bool): (r: (State, bool))
    ensures !s.platform.adapterPresent ==> r == (s, false)
    ensures r.1 ==> s.platform.sdk < VersionTiramisu && AllGranted(s.platform) && adapterResult
    ensures r.0 == s.(outputs := r.0.outputs) && |s.outputs| <= |r.0.outputs| && r.0.outputs[..|s.outputs|] == s.outputs
    ensures AdapterSwitched(enable) in r.0.outputs[|s.outputs|..]
            <==> s.platform.adapterPresent && s.platform.sdk < VersionTiramisu && AllGranted(s.platform)
  {
    if !s.platform.adapterPresent then (s, false)
    else
      var o := SwitchBluetooth(s.platform, true, adapterResult);
      var out := (if o.permissionRequested then [PermissionsRequested] else [])
                 + (if o.adapterCalled then [AdapterSwitched(enable)] else []);
      assert AdapterSwitched(enable) in out <==> o.adapterCalled;
      assert (s.outputs + out)[|s.outputs|..] == out;
      (s.(outputs := s.outputs + out), o.result)
  }

  // ----- Scanning -------------------------------------------------------------

  /** `startScan(timeMillis, onEndScan, deviceCallback)`; `withEnd` says whether
      an end-of-scan callback was given. */
  function StartScan(s: State, timeMillis: int, withEnd: bool): (r: (State, bool))
    ensures r.1 <==> CheckState(s.platform, false).state == Enable
    ensures !r.1 ==> r.0.calls == s.calls && r.0.outputs == s.outputs && r.0.onEndScan == s.onEndScan
    ensures r.1 ==> r.0.calls == s.calls + [StartScanCall] && r.0.onEndScan == withEnd && r.0.scanCallback
    ensures r.1 ==> r.0.handler.delayed == s.handler.delayed + (if timeMillis > 0 then [StopScanTask] else [])
    ensures r.0.handler.ready == CheckValid(s).0.handler.ready
  {
    var (s1, ok) := CheckValid(s);
    if !ok then (s1, false)
    else
      var s2 := s1.(onEndScan := withEnd, scanCallback := true, calls := s1.calls + [StartScanCall]);
      if timeMillis > 0 then (s2.(handler := Handler.PostDelayed(s2.handler, StopScanTask)), true)
      else (s2, true)
  }

  /** `stopScan`: only while an end-of-scan callback is set, which it runs and
      then forgets. */
  function StopScan(s: State): (r: State)
    ensures !r.onEndScan
    ensures s.onEndScan ==> r == s.(onEndScan := false, calls := s.calls + [StopScanCall], outputs := s.outputs + [ScanEnded])
    ensures !s.onEndScan ==> r == s
  {
    if s.onEndScan then s.(onEndScan := false, calls := s.calls + [StopScanCall], outputs := s.outputs + [ScanEnded])
    else s
  }

  /** A second stop does nothing. */
  lemma StopScanIdempotent(s: State)
    ensures StopScan(StopScan(s)) == StopScan(s)
  {
  }

  // ----- Connecting -----------------------------------------------------------

  /** `connect(...)`: refuses unless the adapter is usable; otherwise only
      posts the driver call, so the driver is not called before the handler
      runs the task.  The reconnect counter and the flag are untouched. */
  function Connect(s: State, req: ConnectRequest): (r: (State, bool))
    ensures r.1 <==> CheckState(s.platform, false).state == Enable
    ensures r.0.calls == s.calls && r.0.outputs == s.outputs && r.0.policy == s.policy
    ensures r.0.onEndScan == s.onEndScan && r.0.stateCallback == s.stateCallback
    ensures r.0.handler.delayed == s.handler.delayed
    ensures r.1 ==> r.0.handler.ready == s.handler.ready + [ConnectTask(req)]
    ensures !r.1 ==> r.0 == CheckValid(s).0
  {
    var (s1, ok) := CheckValid(s);
    if !ok then (s1, false)
    else (s1.(handler := Handler.Post(s1.handler, ConnectTask(req))), true)
  }

  /** `disconnect()`: stops a scan, raises the user-disconnect flag, drops
      every pending task, then tells the driver. */
  function Disconnect(s: State): (r: State)
    ensures r.handler == Handler.Empty()
    ensures r.policy == Policy(true, s.policy.cur)
    ensures !r.onEndScan
    ensures r.calls == s.calls + (if s.onEndScan then [StopScanCall] else []) + [DisconnectCall]
    ensures r.outputs == s.outputs + (if s.onEndScan then [ScanEnded] else [])
    ensures r.stateCallback == s.stateCallback && r.platform == s.platform
  {
    var s1 := StopScan(s);
    s1.(policy := AfterDisconnect(s1.policy), handler := Handler.Clear(s1.handler), calls := s1.calls + [DisconnectCall])
  }

  /** A task posted before `disconnect()` never runs after it: the posted
      task leaves no trace in the disconnected state, and however often the
      handler thread runs or delays come due afterwards, nothing happens. */
  lemma {:induction false} DisconnectDropsPendingTasks(s: State, t: Task, later: seq<Event>)
    requires forall k :: 0 <= k < |later| ==> later[k].HandlerRuns? || later[k].DelayElapsed?
    ensures Disconnect(s.(handler := Handler.Post(s.handler, t))) == Disconnect(s)
    ensures Disconnect(s.(handler := Handler.PostDelayed(s.handler, t))) == Disconnect(s)
    ensures Run(Disconnect(s), later) == Disconnect(s)
    decreases |later|
  {
    if |later| > 0 {
      assert Step(Disconnect(s), later[0]) == Disconnect(s);
      DisconnectDropsPendingTasks(s, t, later[1..]);
    }
  }

  /** `release()`: disconnect, unregister the switch receiver, release the driver. */
  function Release(s: State): (r: State)
    ensures !r.switchReceiver && r.handler == Handler.Empty() && r.policy.driving
    ensures r.calls == Disconnect(s).calls + [ReleaseCall]
  {
    var s1 := Disconnect(s);
    s1.(switchReceiver := false, calls := s1.calls + [ReleaseCall])
  }

  /** One effect the state closure asks for. */
  function ApplyEffect(s: State, req: ConnectRequest, e: Effect): (r: State)
  {
    match e
    case PostState(state) => s.(handler := Handler.Post(s.handler, DeliverState(state)))
    case Reissue => Connect(s, req).0
    case ForceDisconnect => Disconnect(s)
  }

  function ApplyEffects(s: State, req: ConnectRequest, effects: seq<Effect>): (r: State)
    decreases |effects|
  {
    if |effects| == 0 then s else ApplyEffects(ApplyEffect(s, req, effects[0]), req, effects[1..])
  }

  /** The driver reports `state` through the closure of the last connect. */
  function OnStateReport(s: State, state: ConnectState): (r: State)
    ensures s.stateCallback.None? ==> r == s
    ensures s.stateCallback.Some? && !IsFailure(s.policy, state) ==>
      && r.handler.ready == s.handler.ready + [DeliverState(state)] && r.handler.delayed == s.handler.delayed
      && r.outputs == s.outputs && r.calls == s.calls
      && r.policy == (if state == Connected then Policy(false, 0) else s.policy)
  {
    match s.stateCallback
    case None => s
    case Some(req) =>
      var (p, effects) := OnConnectState(s.policy, req.reconnectCount, state);
      ApplySingleEffect(s.(policy := p), req, effects[0]);
      ApplyEffects(s.(policy := p), req, effects)
  }

  lemma ApplySingleEffect(s: State, req: ConnectRequest, e: Effect)
    ensures ApplyEffects(s, req, [e]) == ApplyEffect(s, req, e)
  {
    assert [e][1..] == [];
  }

  // ----- MTU, services, write type --------------------------------------------

  datatype MtuOutcome = MtuChanged(ok: bool) | MtuOutOfRange

  /** `changeMtu(mtu)`: the range check throws before the driver is asked;
      otherwise the driver's answer is returned. */
  function ChangeMtu(s: State, mtu: int32, driverAnswer: bool): (r: (State, MtuOutcome))
    ensures r.1 == MtuOutOfRange <==> mtu < 23 || mtu > 512
    ensures r.1 == MtuOutOfRange ==> r.0 == s
    ensures r.1 != MtuOutOfRange ==> r.0 == s.(calls := s.calls + [ChangeMtuCall(mtu)]) && r.1 == MtuChanged(driverAnswer)
  {
    if CheckMtuRange(mtu) == IllegalArgument then (s, MtuOutOfRange)
    else (s.(calls := s.calls + [ChangeMtuCall(mtu)]), MtuChanged(driverAnswer))
  }

  // ----- Data -----------------------------------------------------------------

  /** `receiveData(uuid, onReceive)`: hands the driver a closure that posts each
      packet; the driver's answer is returned as it is. */
  function ReceiveData(s: State, uuid: Option<Uuid>, driverAnswer: bool): (r: (State, bool))
    ensures r.1 == driverAnswer && r.0.receiveCallback
    ensures r.0.calls == s.calls + [ReceiveCall(uuid)] && r.0.handler == s.handler
  {
    (s.(receiveCallback := true, calls := s.calls + [ReceiveCall(uuid)]), driverAnswer)
  }

  /** `sendData(...)`: posts the first attempt; the driver hears nothing
      until the handler runs it. */
  function SendData(s: State, req: SendRequest): (r: State)
    ensures r.handler.ready == s.handler.ready + [SendTask(Attempt(req, 0))]
    ensures r.handler.delayed == s.handler.delayed
    ensures r == s.(handler := r.handler)
  {
    s.(handler := Handler.Post(s.handler, SendTask(Attempt(req, 0))))
  }

  /** `readData(...)`: posts the first attempt; the driver hears nothing
      until the handler runs it. */
  function ReadData(s: State, req: ReadRequest): (r: State)
    ensures r.handler.ready == s.handler.ready + [ReadTask(Attempt(req, 0))]
    ensures r.handler.delayed == s.handler.delayed
    ensures r == s.(handler := r.handler)
  {
    s.(handler := Handler.Post(s.handler, ReadTask(Attempt(req, 0))))
  }

  /** The driver answers send closure `i`: success goes straight to the
      caller; a failure posts the next attempt while the budget lasts and
      reports failure once it is spent.  The closure stays with the driver, so
      a second answer runs it again. */
  function OnSendAnswer(s: State, i: nat, success: bool): (r: State)
    ensures i >= |s.sendCallbacks| ==> r == s
    ensures i < |s.sendCallbacks| ==>
      var a := s.sendCallbacks[i];
      && (success ==> r == s.(outputs := s.outputs + [SendResult(a.request.data, true)]))
      && (!success && a.attempt < Budget(a.request.resendCount) ==>
            r == s.(handler := Handler.Post(s.handler, SendTask(Attempt(a.request, a.attempt + 1)))))
      && (!success && a.attempt >= Budget(a.request.resendCount) ==>
            r == s.(outputs := s.outputs + [SendResult(a.request.data, false)]))
  {
    if i >= |s.sendCallbacks| then s
    else
      var a := s.sendCallbacks[i];
      if success then s.(outputs := s.outputs + [SendResult(a.request.data, true)])
      else match DecideRetry(a.attempt, a.request.resendCount)
        case RetryAgain(n) => s.(handler := Handler.Post(s.handler, SendTask(Attempt(a.request, n))))
        case Fail => s.(outputs := s.outputs + [SendResult(a.request.data, false)])
  }

  /** The driver answers read closure `i`; a failure reports no value.  The
      closure logs a success by decoding its data with `!!`, so a success
      without data throws before the caller's callback runs. */
  function OnReadAnswer(s: State, i: nat, success: bool, value: Option<ByteArray>): (r: State)
    ensures i >= |s.readCallbacks| ==> r == s
    ensures i < |s.readCallbacks| ==>
      var a := s.readCallbacks[i];
      && (success && value.Some? ==> r == s.(outputs := s.outputs + [ReadResult(true, value)]))
      && (success && value.None? ==> r == s.(outputs := s.outputs + [NullReadThrown]))
      && (!success && a.attempt < Budget(a.request.rereadCount) ==>
            r == s.(handler := Handler.Post(s.handler, ReadTask(Attempt(a.request, a.attempt + 1)))))
      && (!success && a.attempt >= Budget(a.request.rereadCount) ==>
            r == s.(outputs := s.outputs + [ReadResult(false, None)]))
  {
    if i >= |s.readCallbacks| then s
    else
      var a := s.readCallbacks[i];
      if success then
        if value.Some? then s.(outputs := s.outputs + [ReadResult(true, value)])
        else s.(outputs := s.outputs + [NullReadThrown])
      else match DecideRetry(a.attempt, a.request.rereadCount)
        case RetryAgain(n) => s.(handler := Handler.Post(s.handler, ReadTask(Attempt(a.request, n))))
        case Fail => s.(outputs := s.outputs + [ReadResult(false, None)])
  }

  // ----- The handler thread ---------------------------------------------------

  /** What running one posted closure does. */
  function RunTask(s: State, t: Task): (r: State)
    ensures r.policy == s.policy && r.stateCallback == (if t.ConnectTask? then Some(t.connect) else s.stateCallback)
    ensures t.DeliverState? || t.DeliverDevice? || t.DeliverData? ==>
      r.calls == s.calls && r.handler == s.handler && |r.outputs| == |s.outputs| + 1
    ensures t.SendTask? ==>
      && r.calls == s.calls + [SendCall(t.send.request.uuid, t.send.request.data, t.send.request.timeoutMillis)]
      && r.sendCallbacks == s.sendCallbacks + [t.send] && r.outputs == s.outputs && r.handler == s.handler
    ensures t.ReadTask? ==>
      && r.calls == s.calls + [ReadCall(t.read.request.uuid, t.read.request.timeoutMillis)]
      && r.readCallbacks == s.readCallbacks + [t.read] && r.outputs == s.outputs && r.handler == s.handler
  {
    match t
    case DeliverState(state) => s.(outputs := s.outputs + [StateDelivered(state)])
    case ConnectTask(req) => s.(calls := s.calls + [ConnectCall(req)], stateCallback := Some(req))
    case DeliverDevice(d) => s.(outputs := s.outputs + [DeviceDelivered(d)])
    case StopScanTask => StopScan(s)
    case SendTask(a) =>
      s.(calls := s.calls + [SendCall(a.request.uuid, a.request.data, a.request.timeoutMillis)],
         sendCallbacks := s.sendCallbacks + [a])
    case ReadTask(a) =>
      s.(calls := s.calls + [ReadCall(a.request.uuid, a.request.timeoutMillis)],
         readCallbacks := s.readCallbacks + [a])
    case RequestPermissionsTask =>
      if RequestPermissions(s.platform) then s.(outputs := s.outputs + [PermissionsRequested]) else s
    case SwitchOnTask =>
      // The answer of the adapter is discarded by the posted closure.
      Switch(s, true, false).0
    case DeliverData(d) => s.(outputs := s.outputs + [DataDelivered(d)])
  }

  /** The handler thread takes and runs its oldest ready task. */
  function RunNext(s: State): (r: State)
  {
    if |s.handler.ready| == 0 then s
    else RunTask(s.(handler := Handler.Rest(s.handler)), s.handler.ready[0])
  }

  // ----- Events ---------------------------------------------------------------

  /** Everything that can happen next. */
  datatype Event =
    | StartScanEvent(timeMillis: int, withEnd: bool)
    | StopScanEvent
    | ConnectEvent(connect: ConnectRequest)
    | ChangeMtuEvent(mtu: int32, driverAnswer: bool)
    | AssignServiceEvent(service: Service)
    | SetWriteTypeEvent(writeType: int32)
    | ReceiveDataEvent(uuid: Option<Uuid>, driverAnswer: bool)
    | SendDataEvent(send: SendRequest)
    | ReadDataEvent(read: ReadRequest)
    | DisconnectEvent
    | ReleaseEvent
    | SwitchEvent(enable: bool, adapterResult: bool)
    | SetSwitchReceiveEvent
    | HandlerRuns                                   // the handler thread runs one task
    | DelayElapsed(index: nat)                      // a delayed post comes due
    | DeviceFound(device: Device)                   // the driver's scan closure
    | StateReport(state: ConnectState)              // the driver's state closure
    | SendAnswer(index: nat, success: bool)         // the driver's send closure `index`
    | ReadAnswer(index: nat, success: bool, value: Option<ByteArray>)
    | DataArrived(data: ByteArray)                  // the driver's receive closure
    | SwitchBroadcast(action: string, extraState: Option<int32>)
    | PlatformChanged(platform: Platform)           // the user grants a permission, toggles the adapter, ...

  /** The adapter on/off receiver registered at construction. */
  function OnSwitch(s: State, action: string, extraState: Option<int32>): (r: State)
    ensures !s.switchReceiver || OnSwitchBroadcast(action, extraState) == NoSignal ==> r == s
    ensures s.switchReceiver && OnSwitchBroadcast(action, extraState) == TurningOff ==>
      r.handler == Handler.Empty() && r.policy.driving && r.calls == Disconnect(s).calls
    ensures OnSwitchBroadcast(action, extraState) != TurningOff ==>
      r.handler == s.handler && r.policy == s.policy && r.calls == s.calls
    ensures |r.outputs| >= |s.outputs|
    ensures TurnOnNotified in r.outputs[|s.outputs|..] <==>
      s.switchReceiver && s.switchListeners && OnSwitchBroadcast(action, extraState) == TurnedOn
  {
    if !s.switchReceiver then s
    else match OnSwitchBroadcast(action, extraState)
      case TurnedOn => if s.switchListeners then s.(outputs := s.outputs + [TurnOnNotified]) else s
      case TurningOff =>
        var s1 := Disconnect(s);
        if s1.switchListeners then s1.(outputs := s1.outputs + [TurnOffNotified]) else s1
      case NoSignal => s
  }

  function Step(s: State, e: Event): (r: State)
  {
    match e
    case StartScanEvent(t, withEnd) => StartScan(s, t, withEnd).0
    case StopScanEvent => StopScan(s)
    case ConnectEvent(req) => Connect(s, req).0
    case ChangeMtuEvent(mtu, answer) => ChangeMtu(s, mtu, answer).0
    case AssignServiceEvent(service) => s.(calls := s.calls + [AssignServiceCall(service)])
    case SetWriteTypeEvent(w) => s.(calls := s.calls + [WriteTypeCall(w)])
    case ReceiveDataEvent(uuid, answer) => ReceiveData(s, uuid, answer).0
    case SendDataEvent(req) => SendData(s, req)
    case ReadDataEvent(req) => ReadData(s, req)
    case DisconnectEvent => Disconnect(s)
    case ReleaseEvent => Release(s)
    case SwitchEvent(enable, result) => Switch(s, enable, result).0
    case SetSwitchReceiveEvent => s.(switchListeners := true)
    case HandlerRuns => RunNext(s)
    case DelayElapsed(i) =>
      if i < |s.handler.delayed| then s.(handler := Handler.Elapse(s.handler, i)) else s
    case DeviceFound(d) =>
      if s.scanCallback then s.(handler := Handler.Post(s.handler, DeliverDevice(d))) else s
    case StateReport(state) => OnStateReport(s, state)
    case SendAnswer(i, success) => OnSendAnswer(s, i, success)
    case ReadAnswer(i, success, value) => OnReadAnswer(s, i, success, value)
    case DataArrived(d) =>
      if s.receiveCallback then s.(handler := Handler.Post(s.handler, DeliverData(d))) else s
    case SwitchBroadcast(action, extra) => OnSwitch(s, action, extra)
    case PlatformChanged(p) => s.(platform := p)
  }

  function Run(s: State, events: seq<Event>): (r: State)
    decreases |events|
  {
    if |events| == 0 then s else Run(Step(s, events[0]), events[1..])
  }

  // ----- Reconnect ------------------------------------------------------------

  /** One reconnect round: a failure report with budget left posts RECONNECT
      and the connect task; the handler then delivers RECONNECT and calls the
      driver's connect again with the same arguments. */
  lemma OneReconnectRound(s: State, req: ConnectRequest, f: ConnectState)
    requires s.stateCallback == Some(req) && s.handler.ready == []
    requires CheckState(s.platform, false).state == Enable
    requires !s.policy.driving && IsFailure(s.policy, f)
    requires 0 < req.reconnectCount && s.policy.cur < req.reconnectCount as int
    ensures OnStateReport(s, f).handler.ready == [DeliverState(Reconnect), ConnectTask(req)]
    ensures var r := ReconnectRound(s, f);
      && r.policy == Policy(false, s.policy.cur + 1)
      && r.outputs == s.outputs + [StateDelivered(Reconnect)]
      && r.calls == s.calls + [ConnectCall(req)]
      && r.stateCallback == Some(req) && r.handler == s.handler && r.platform == s.platform
  {
    var effects := [PostState(Reconnect), Reissue];
    assert OnConnectState(s.policy, req.reconnectCount, f) == (Policy(false, s.policy.cur + 1), effects);
    var s0 := s.(policy := Policy(false, s.policy.cur + 1));
    var s1 := ApplyEffect(s0, req, effects[0]);
    var s2 := ApplyEffect(s1, req, effects[1]);
    assert effects[1..][1..] == [];
    assert ApplyEffects(s0, req, effects) == s2;
    assert s2.handler.ready == [DeliverState(Reconnect), ConnectTask(req)];
  }

  /** With the budget spent, a failure report does exactly what `disconnect()`
      does: the failure it posts first is dropped with the rest of the queue,
      so the application never sees it. */
  lemma GiveUpDropsFailure(s: State, req: ConnectRequest, f: ConnectState)
    requires s.stateCallback == Some(req) && IsFailure(s.policy, f)
    requires 0 < req.reconnectCount && s.policy.cur >= req.reconnectCount as int
    ensures OnStateReport(s, f) == Disconnect(s)
    ensures OnStateReport(s, f).handler == Handler.Empty()
  {
    var effects := [PostState(f), ForceDisconnect];
    assert OnConnectState(s.policy, req.reconnectCount, f) == (s.policy, effects);
    var s1 := ApplyEffect(s, req, effects[0]);
    assert effects[1..] == [ForceDisconnect] && effects[1..][1..] == [];
    assert ApplyEffects(s1, req, effects[1..]) == ApplyEffects(Disconnect(s1), req, []);
    assert ApplyEffects(s, req, effects) == Disconnect(s1);
  }

  /** A failure report, then the handler running two tasks. */
  function ReconnectRound(s: State, f: ConnectState): (r: State)
  {
    RunNext(RunNext(OnStateReport(s, f)))
  }

  /** `k` reconnect rounds in a row. */
  function ReconnectRounds(s: State, f: ConnectState, k: nat): (r: State)
    decreases k
  {
    if k == 0 then s else ReconnectRound(ReconnectRounds(s, f, k - 1), f)
  }

  lemma {:induction false} ReconnectRoundsFrom(s: State, req: ConnectRequest, f: ConnectState, k: nat)
    requires s.stateCallback == Some(req) && s.handler.ready == []
    requires CheckState(s.platform, false).state == Enable
    requires !s.policy.driving
    requires f == ConnectError || f == ConnectTimeout || f == Disconnected
    requires 0 < req.reconnectCount && s.policy.cur + k <= req.reconnectCount as int
    ensures var r := ReconnectRounds(s, f, k);
      && r.policy == Policy(false, s.policy.cur + k)
      && r.outputs == s.outputs + Repeat(StateDelivered(Reconnect), k)
      && r.calls == s.calls + Repeat(ConnectCall(req), k)
      && r.stateCallback == Some(req) && r.handler.ready == [] && r.platform == s.platform
    decreases k
  {
    if k > 0 {
      ReconnectRoundsFrom(s, req, f, k - 1);
      var p := ReconnectRounds(s, f, k - 1);
      OneReconnectRound(p, req, f);
      RepeatBefore(s.outputs, StateDelivered(Reconnect), k);
      RepeatBefore(s.calls, ConnectCall(req), k);
    }
  }

  /** `connect(..., reconnectCount = N)` with `N > 0` against a driver that
      keeps failing: exactly `N` RECONNECT deliveries and `N` further driver
      connects; the next failure disconnects and is itself never delivered. */
  lemma ReconnectExhaustion(s: State, req: ConnectRequest, f: ConnectState)
    requires s.stateCallback == Some(req) && s.handler.ready == []
    requires CheckState(s.platform, false).state == Enable
    requires s.policy == Policy(false, 0)
    requires f == ConnectError || f == ConnectTimeout || f == Disconnected
    requires 0 < req.reconnectCount
    ensures var r := ReconnectRounds(s, f, req.reconnectCount as nat);
      && r.outputs == s.outputs + Repeat(StateDelivered(Reconnect), req.reconnectCount as nat)
      && r.calls == s.calls + Repeat(ConnectCall(req), req.reconnectCount as nat)
      && OnStateReport(r, f) == Disconnect(r)
  {
    var n := req.reconnectCount as nat;
    ReconnectRoundsFrom(s, req, f, n);
    GiveUpDropsFailure(ReconnectRounds(s, f, n), req, f);
  }

  /** A reconnect while the adapter is unusable spends one unit of the budget
      and delivers RECONNECT, but no connect reaches the driver. */
  lemma ReconnectWhileUnusable(s: State, req: ConnectRequest, f: ConnectState)
    requires s.stateCallback == Some(req) && IsFailure(s.policy, f)
    requires CheckState(s.platform, false).state != Enable
    requires 0 < req.reconnectCount && s.policy.cur < req.reconnectCount as int
    ensures OnStateReport(s, f).policy.cur == s.policy.cur + 1
    ensures var ready := OnStateReport(s, f).handler.ready;
      || ready == s.handler.ready + [DeliverState(Reconnect)]
      || ready == s.handler.ready + [DeliverState(Reconnect), RequestPermissionsTask]
      || ready == s.handler.ready + [DeliverState(Reconnect), SwitchOnTask]
    ensures OnStateReport(s, f).calls == s.calls
  {
    var effects := [PostState(Reconnect), Reissue];
    var s0 := s.(policy := s.policy.(cur := s.policy.cur + 1));
    assert OnConnectState(s.policy, req.reconnectCount, f) == (s0.policy, effects);
    var s1 := ApplyEffect(s0, req, effects[0]);
    assert effects[1..][1..] == [];
    assert ApplyEffects(s0, req, effects) == Connect(s1, req).0;
    assert s1.handler.ready == s.handler.ready + [DeliverState(Reconnect)];
  }

  /** A DISCONNECTED the user asked for is delivered as it is. */
  lemma UserDisconnectDelivered(s: State, req: ConnectRequest)
    requires s.stateCallback == Some(req) && s.policy.driving
    ensures OnStateReport(s, Disconnected) == s.(handler := Handler.Post(s.handler, DeliverState(Disconnected)))
  {
    RetryPolicy.DrivenDisconnectForwards(s.policy, req.reconnectCount);
    assert [PostState(Disconnected)][1..] == [];
  }

  /** CONNECTED resets the counter and the flag, and is delivered. */
  lemma ConnectedResets(s: State, req: ConnectRequest)
    requires s.stateCallback == Some(req)
    ensures OnStateReport(s, Connected)
            == s.(policy := Policy(false, 0), handler := Handler.Post(s.handler, DeliverState(Connected)))
  {
    assert [PostState(Connected)][1..] == [];
  }

  /** Nothing but CONNECTED resets the counter: a spent budget carries over
      into the next `connect`, whose first failure disconnects at once. */
  lemma SpentBudgetCarriesOver(s: State, req: ConnectRequest, f: ConnectState)
    requires CheckState(s.platform, false).state == Enable && s.handler.ready == []
    requires 0 < req.reconnectCount && s.policy.cur >= req.reconnectCount as int
    requires f == ConnectError || f == ConnectTimeout
    ensures var s1 := RunNext(Connect(s, req).0);
      && s1.stateCallback == Some(req) && s1.policy == s.policy
      && OnStateReport(s1, f) == Disconnect(s1)
  {
    var s1 := RunNext(Connect(s, req).0);
    assert s1.stateCallback == Some(req);
    GiveUpDropsFailure(s1, req, f);
  }

  // ----- Policy changes over any step ------------------------------------------

  /** `b` keeps `a`'s counter and does not lower the user-disconnect flag. */
  predicate KeepsPolicy(a: State, b: State)
  {
    b.policy.cur == a.policy.cur && (a.policy.driving ==> b.policy.driving)
  }

  lemma {:induction false} ApplyEffectsKeepPolicy(s: State, req: ConnectRequest, effects: seq<Effect>)
    ensures KeepsPolicy(s, ApplyEffects(s, req, effects))
    decreases |effects|
  {
    if |effects| > 0 {
      ApplyEffectsKeepPolicy(ApplyEffect(s, req, effects[0]), req, effects[1..]);
    }
  }

  lemma StateReportKeepsPolicy(s: State, state: ConnectState)
    ensures var r := OnStateReport(s, state);
      (r.policy.cur < s.policy.cur || (s.policy.driving && !r.policy.driving)) ==> state == Connected
    ensures OnStateReport(s, state).policy.cur <= s.policy.cur + 1 || state == Connected
  {
    if s.stateCallback.Some? {
      var req := s.stateCallback.value;
      var (p, effects) := OnConnectState(s.policy, req.reconnectCount, state);
      RetryPolicy.OnlyConnectedResets(s.policy, req.reconnectCount, state);
      ApplyEffectsKeepPolicy(s.(policy := p), req, effects);
    }
  }

  lemma RunNextKeepsPolicy(s: State)
    ensures KeepsPolicy(s, RunNext(s))
  {
    if |s.handler.ready| > 0 {
      var t := s.handler.ready[0];
      var s1 := s.(handler := Handler.Rest(s.handler));
      assert t.SwitchOnTask? ==> RunTask(s1, t).policy == s.policy;
    }
  }

  /** Whatever happens, only a CONNECTED report lowers the reconnect counter
      or clears the user-disconnect flag; no event raises the counter by more
      than one. */
  lemma OnlyConnectedResetsPolicy(s: State, e: Event)
    ensures var r := Step(s, e);
      (r.policy.cur < s.policy.cur || (s.policy.driving && !r.policy.driving)) ==> e == StateReport(Connected)
    ensures Step(s, e).policy.cur <= s.policy.cur + 1 || e == StateReport(Connected)
  {
    if e.StateReport? {
      StateReportKeepsPolicy(s, e.state);
    } else if e.HandlerRuns? {
      RunNextKeepsPolicy(s);
    } else if e.SwitchBroadcast? {
      assert KeepsPolicy(s, OnSwitch(s, e.action, e.extraState));
    } else if e.SwitchEvent? {
      assert Switch(s, e.enable, e.adapterResult).0.policy == s.policy;
    } else {
      OtherEventKeepsPolicy(s, e);
    }
  }

  /** The events that never touch the reconnect policy. */
  lemma OtherEventKeepsPolicy(s: State, e: Event)
    requires !e.StateReport? && !e.HandlerRuns? && !e.SwitchBroadcast? && !e.SwitchEvent?
    ensures KeepsPolicy(s, Step(s, e))
  {
    if e.StartScanEvent? || e.ConnectEvent? || e.ChangeMtuEvent? || e.ReceiveDataEvent? {
      SetupKeepsPolicy(s, e);
    } else if e.SendDataEvent? || e.ReadDataEvent? || e.SendAnswer? || e.ReadAnswer? {
      TransferKeepsPolicy(s, e);
    } else if e.DisconnectEvent? {
      assert KeepsPolicy(s, Disconnect(s));
    } else if e.ReleaseEvent? {
      assert KeepsPolicy(s, Release(s));
    }
  }

  lemma SetupKeepsPolicy(s: State, e: Event)
    requires e.StartScanEvent? || e.ConnectEvent? || e.ChangeMtuEvent? || e.ReceiveDataEvent?
    ensures KeepsPolicy(s, Step(s, e))
  {
    if e.StartScanEvent? {
      assert KeepsPolicy(s, StartScan(s, e.timeMillis, e.withEnd).0);
    } else if e.ConnectEvent? {
      assert KeepsPolicy(s, Connect(s, e.connect).0);
    } else if e.ChangeMtuEvent? {
      assert KeepsPolicy(s, ChangeMtu(s, e.mtu, e.driverAnswer).0);
    } else {
      assert KeepsPolicy(s, ReceiveData(s, e.uuid, e.driverAnswer).0);
    }
  }

  lemma TransferKeepsPolicy(s: State, e: Event)
    requires e.SendDataEvent? || e.ReadDataEvent? || e.SendAnswer? || e.ReadAnswer?
    ensures KeepsPolicy(s, Step(s, e))
  {
    if e.SendDataEvent? || e.ReadDataEvent? {
      RequestKeepsPolicy(s, e);
    } else if e.SendAnswer? {
      assert KeepsPolicy(s, OnSendAnswer(s, e.index, e.success));
    } else {
      assert KeepsPolicy(s, OnReadAnswer(s, e.index, e.success, e.value));
    }
  }

  lemma RequestKeepsPolicy(s: State, e: Event)
    requires e.SendDataEvent? || e.ReadDataEvent?
    ensures KeepsPolicy(s, Step(s, e))
  {
    if e.SendDataEvent? {
      assert KeepsPolicy(s, SendData(s, e.send));
    } else {
      assert KeepsPolicy(s, ReadData(s, e.read));
    }
  }

  // ----- End of scan ----------------------------------------------------------

  function CountScanEnded(outs: seq<Output>): (n: nat)
    ensures n <= |outs|
  {
    if |outs| == 0 then 0 else (if outs[0] == ScanEnded then 1 else 0) + CountScanEnded(outs[1..])
  }

  lemma {:induction false} CountScanEndedConcat(a: seq<Output>, b: seq<Output>)
    ensures CountScanEnded(a + b) == CountScanEnded(a) + CountScanEnded(b)
  {
    if |a| == 0 {
      assert a + b == b;
    } else {
      assert (a + b)[1..] == a[1..] + b;
      CountScanEndedConcat(a[1..], b);
    }
  }

  /** End-of-scan callbacks already run plus the one still pending. */
  function ScanPotential(s: State): nat
  {
    CountScanEnded(s.outputs) + (if s.onEndScan then 1 else 0)
  }

  /** Appending one output other than ScanEnded does not change the count. */
  lemma AppendOther(s: State, x: Output)
    requires x != ScanEnded
    ensures CountScanEnded(s.outputs + [x]) == CountScanEnded(s.outputs)
  {
    CountScanEndedConcat(s.outputs, [x]);
  }

  lemma StopScanPotential(s: State)
    ensures ScanPotential(StopScan(s)) == ScanPotential(s)
  {
    CountScanEndedConcat(s.outputs, [ScanEnded]);
  }

  lemma DisconnectPotential(s: State)
    ensures ScanPotential(Disconnect(s)) == ScanPotential(s)
  {
    StopScanPotential(s);
  }

  lemma SwitchPotential(s: State, enable: bool, adapterResult: bool)
    ensures ScanPotential(Switch(s, enable, adapterResult).0) == ScanPotential(s)
  {
    var r := Switch(s, enable, adapterResult).0;
    var added := r.outputs[|s.outputs|..];
    assert r.outputs == s.outputs + added;
    CountScanEndedConcat(s.outputs, added);
    if s.platform.adapterPresent {
      var o := SwitchBluetooth(s.platform, true, adapterResult);
      var out := (if o.permissionRequested then [PermissionsRequested] else [])
                 + (if o.adapterCalled then [AdapterSwitched(enable)] else []);
      assert r.outputs == s.outputs + out;
      assert added == out;
      assert CountScanEnded(out) == 0 by {
        CountScanEndedConcat(if o.permissionRequested then [PermissionsRequested] else [],
                             if o.adapterCalled then [AdapterSwitched(enable)] else []);
      }
    }
  }

  lemma {:induction false} ApplyEffectsPotential(s: State, req: ConnectRequest, effects: seq<Effect>)
    ensures ScanPotential(ApplyEffects(s, req, effects)) == ScanPotential(s)
    decreases |effects|
  {
    if |effects| > 0 {
      var s1 := ApplyEffect(s, req, effects[0]);
      if effects[0] == ForceDisconnect {
        DisconnectPotential(s);
      }
      ApplyEffectsPotential(s1, req, effects[1..]);
    }
  }

  lemma RunTaskPotential(s: State, t: Task)
    ensures ScanPotential(RunTask(s, t)) == ScanPotential(s)
  {
    match t {
      case DeliverState(state) => AppendOther(s, StateDelivered(state));
      case DeliverDevice(d) => AppendOther(s, DeviceDelivered(d));
      case StopScanTask => StopScanPotential(s);
      case RequestPermissionsTask => AppendOther(s, PermissionsRequested);
      case SwitchOnTask => SwitchPotential(s, true, false);
      case DeliverData(d) => AppendOther(s, DataDelivered(d));
      case _ =>
    }
  }

  lemma RunNextPotential(s: State)
    ensures ScanPotential(RunNext(s)) == ScanPotential(s)
  {
    if |s.handler.ready| > 0 {
      RunTaskPotential(s.(handler := Handler.Rest(s.handler)), s.handler.ready[0]);
    }
  }

  lemma StateReportPotential(s: State, state: ConnectState)
    ensures ScanPotential(OnStateReport(s, state)) == ScanPotential(s)
  {
    if s.stateCallback.Some? {
      var req := s.stateCallback.value;
      var (p, effects) := OnConnectState(s.policy, req.reconnectCount, state);
      ApplyEffectsPotential(s.(policy := p), req, effects);
    }
  }

  lemma SendAnswerPotential(s: State, i: nat, success: bool)
    ensures ScanPotential(OnSendAnswer(s, i, success)) == ScanPotential(s)
  {
    if i < |s.sendCallbacks| {
      AppendOther(s, SendResult(s.sendCallbacks[i].request.data, success));
    }
  }

  lemma ReadAnswerPotential(s: State, i: nat, success: bool, value: Option<ByteArray>)
    ensures ScanPotential(OnReadAnswer(s, i, success, value)) == ScanPotential(s)
  {
    if i < |s.readCallbacks| {
      if success && value.None? {
        AppendOther(s, NullReadThrown);
      } else {
        AppendOther(s, ReadResult(success, if success then value else None));
      }
    }
  }

  lemma OnSwitchPotential(s: State, action: string, extra: Option<int32>)
    ensures ScanPotential(OnSwitch(s, action, extra)) <= ScanPotential(s)
  {
    if s.switchReceiver && OnSwitchBroadcast(action, extra) == TurnedOn {
      AppendOther(s, TurnOnNotified);
    } else if s.switchReceiver && OnSwitchBroadcast(action, extra) == TurningOff {
      DisconnectPotential(s);
      AppendOther(Disconnect(s), TurnOffNotified);
    }
  }

  /** No event but `startScan` arms the end-of-scan callback, and none runs it
      without disarming it. */
  lemma StepPotential(s: State, e: Event)
    requires !e.StartScanEvent?
    ensures ScanPotential(Step(s, e)) <= ScanPotential(s)
  {
    if e.StopScanEvent? || e.DisconnectEvent? || e.ReleaseEvent? || e.SwitchEvent? || e.SwitchBroadcast? {
      TeardownPotential(s, e);
    } else if e.HandlerRuns? || e.StateReport? || e.SendAnswer? || e.ReadAnswer? {
      DriverPotential(s, e);
    } else {
      QuietPotential(s, e);
    }
  }

  lemma TeardownPotential(s: State, e: Event)
    requires e.StopScanEvent? || e.DisconnectEvent? || e.ReleaseEvent? || e.SwitchEvent? || e.SwitchBroadcast?
    ensures ScanPotential(Step(s, e)) <= ScanPotential(s)
  {
    if e.StopScanEvent? {
      StopScanPotential(s);
    } else if e.DisconnectEvent? || e.ReleaseEvent? {
      DisconnectPotential(s);
    } else if e.SwitchEvent? {
      SwitchPotential(s, e.enable, e.adapterResult);
    } else {
      OnSwitchPotential(s, e.action, e.extraState);
    }
  }

  lemma DriverPotential(s: State, e: Event)
    requires e.HandlerRuns? || e.StateReport? || e.SendAnswer? || e.ReadAnswer?
    ensures ScanPotential(Step(s, e)) <= ScanPotential(s)
  {
    if e.HandlerRuns? {
      RunNextPotential(s);
    } else if e.StateReport? {
      StateReportPotential(s, e.state);
    } else if e.SendAnswer? {
      SendAnswerPotential(s, e.index, e.success);
    } else {
      ReadAnswerPotential(s, e.index, e.success, e.value);
    }
  }

  /** The remaining events leave the outputs and the armed callback alone. */
  lemma QuietPotential(s: State, e: Event)
    requires !e.StartScanEvent? && !e.StopScanEvent? && !e.DisconnectEvent? && !e.ReleaseEvent?
    requires !e.SwitchEvent? && !e.SwitchBroadcast? && !e.HandlerRuns? && !e.StateReport?
    requires !e.SendAnswer? && !e.ReadAnswer?
    ensures Step(s, e).outputs == s.outputs && Step(s, e).onEndScan == s.onEndScan
  {
    if e.ConnectEvent? || e.ChangeMtuEvent? || e.ReceiveDataEvent? {
      QuietSetup(s, e);
    } else if e.SendDataEvent? || e.ReadDataEvent? {
      QuietTransfer(s, e);
    }
  }

  lemma QuietSetup(s: State, e: Event)
    requires e.ConnectEvent? || e.ChangeMtuEvent? || e.ReceiveDataEvent?
    ensures Step(s, e).outputs == s.outputs && Step(s, e).onEndScan == s.onEndScan
  {
    if e.ConnectEvent? {
      var r := Connect(s, e.connect).0;
      assert r.outputs == s.outputs && r.onEndScan == s.onEndScan;
    } else if e.ChangeMtuEvent? {
      var r := ChangeMtu(s, e.mtu, e.driverAnswer).0;
      assert r.outputs == s.outputs && r.onEndScan == s.onEndScan;
    } else {
      var r := ReceiveData(s, e.uuid, e.driverAnswer).0;
      assert r.outputs == s.outputs && r.onEndScan == s.onEndScan;
    }
  }

  lemma QuietTransfer(s: State, e: Event)
    requires e.SendDataEvent? || e.ReadDataEvent?
    ensures Step(s, e).outputs == s.outputs && Step(s, e).onEndScan == s.onEndScan
  {
    if e.SendDataEvent? {
      var r := SendData(s, e.send);
      assert r.outputs == s.outputs && r.onEndScan == s.onEndScan;
    } else {
      var r := ReadData(s, e.read);
      assert r.outputs == s.outputs && r.onEndScan == s.onEndScan;
    }
  }

  /** Between two `startScan` calls the end-of-scan callback runs at most
      once, whatever else happens: timers, disconnects, adapter broadcasts. */
  lemma {:induction false} EndOfScanAtMostOnce(s: State, events: seq<Event>)
    requires forall i :: 0 <= i < |events| ==> !events[i].StartScanEvent?
    ensures CountScanEnded(Run(s, events).outputs) <= CountScanEnded(s.outputs) + (if s.onEndScan then 1 else 0)
    decreases |events|
  {
    if |events| > 0 {
      StepPotential(s, events[0]);
      EndOfScanAtMostOnce(Step(s, events[0]), events[1..]);
    }
  }

  /** The delayed stop is not tied to the scan that set it: left over from an
      earlier scan, it ends a later scan that asked for no time limit. */
  lemma EarlierTimerEndsLaterScan(s: State)
    requires CheckState(s.platform, false).state == Enable
    requires s.handler.ready == [] && |s.handler.delayed| > 0 && s.handler.delayed[0] == StopScanTask
    ensures var s1 := StartScan(s, 0, true).0;
      s1.onEndScan && !Run(s1, [DelayElapsed(0), HandlerRuns]).onEndScan
    ensures Run(StartScan(s, 0, true).0, [DelayElapsed(0), HandlerRuns]).outputs == s.outputs + [ScanEnded]
  {
    var s1 := StartScan(s, 0, true).0;
    var s2 := Step(s1, DelayElapsed(0));
    assert s2.handler.ready == [StopScanTask];
    assert [DelayElapsed(0), HandlerRuns][1..] == [HandlerRuns];
    assert Run(s1, [DelayElapsed(0), HandlerRuns]) == Run(s2, [HandlerRuns]);
  }

  // ----- Resend ---------------------------------------------------------------

  /** The handler runs the pending send task, then the driver answers the
      closure it was just handed with the next outcome. */
  function SendRounds(s: State, outcomes: seq<bool>): (r: State)
    decreases |outcomes|
  {
    if |outcomes| == 0 then s
    else SendRounds(OnSendAnswer(RunNext(s), |s.sendCallbacks|, outcomes[0]), outcomes[1..])
  }

  /** One send round: the handler hands the driver a fresh closure, whose
      answer either ends the loop with one result or posts the next attempt. */
  lemma OneSendRound(s: State, req: SendRequest, a: nat, success: bool)
    requires s.handler.ready == [SendTask(Attempt(req, a))]
    ensures var r := OnSendAnswer(RunNext(s), |s.sendCallbacks|, success);
      && r.calls == s.calls + [SendCall(req.uuid, req.data, req.timeoutMillis)]
      && (success || DecideRetry(a, req.resendCount) == Fail ==>
            r.outputs == s.outputs + [SendResult(req.data, success)] && r.handler.ready == [])
      && (!success && DecideRetry(a, req.resendCount) != Fail ==>
            r.outputs == s.outputs && r.handler.ready == [SendTask(Attempt(req, a + 1))])
  {
    var s1 := RunNext(s);
    assert s1.sendCallbacks[|s.sendCallbacks|] == Attempt(req, a);
    assert s1.calls == s.calls + [SendCall(req.uuid, req.data, req.timeoutMillis)];
  }

  /** The facade's resend loop agrees with the retry policy run: when the run
      ends after all `k` outcomes, the driver saw `k` sends and the caller got
      exactly one result, the run's. */
  lemma {:induction false} SendRoundsFollowPolicy(s: State, req: SendRequest, a: nat, outcomes: seq<bool>, ok: bool)
    requires s.handler.ready == [SendTask(Attempt(req, a))]
    requires RunRetries(outcomes, a, req.resendCount) == Finished(|outcomes|, ok)
    ensures var r := SendRounds(s, outcomes);
      && r.calls == s.calls + Repeat(SendCall(req.uuid, req.data, req.timeoutMillis), |outcomes|)
      && r.outputs == s.outputs + [SendResult(req.data, ok)]
      && r.handler.ready == []
    decreases |outcomes|
  {
    var call := SendCall(req.uuid, req.data, req.timeoutMillis);
    OneSendRound(s, req, a, outcomes[0]);
    var s2 := OnSendAnswer(RunNext(s), |s.sendCallbacks|, outcomes[0]);
    if outcomes[0] || DecideRetry(a, req.resendCount) == Fail {
      assert |outcomes| == 1 && outcomes[1..] == [];
    } else {
      var n := a + 1;
      SendRoundsFollowPolicy(s2, req, n, outcomes[1..], ok);
      RepeatAfter(s.calls, call, |outcomes|);
    }
  }

  /** `sendData` with budget `R` against a driver that always fails: `R + 1`
      sends when `R > 0`, one otherwise, then a single failure callback. */
  lemma AlwaysFailingSend(s: State, req: SendRequest)
    requires s.handler.ready == []
    ensures var outcomes := Repeat(false, Budget(req.resendCount) + 1);
      var r := SendRounds(SendData(s, req), outcomes);
      && r.calls == s.calls + Repeat(SendCall(req.uuid, req.data, req.timeoutMillis), Budget(req.resendCount) + 1)
      && r.outputs == s.outputs + [SendResult(req.data, false)]
  {
    var outcomes := Repeat(false, Budget(req.resendCount) + 1);
    AlwaysFailingRetries(outcomes, req.resendCount);
    SendRoundsFollowPolicy(SendData(s, req), req, 0, outcomes, false);
  }

  // ----- Reread ---------------------------------------------------------------

  /** The handler runs the pending read task, then the driver answers the
      closure it was just handed with the next outcome. */
  function ReadRounds(s: State, outcomes: seq<bool>, value: ByteArray): (r: State)
    decreases |outcomes|
  {
    if |outcomes| == 0 then s
    else ReadRounds(OnReadAnswer(RunNext(s), |s.readCallbacks|, outcomes[0], Some(value)), outcomes[1..], value)
  }

  /** One read round, as `OneSendRound`; the value reaches the caller only
      on success. */
  lemma OneReadRound(s: State, req: ReadRequest, a: nat, success: bool, value: ByteArray)
    requires s.handler.ready == [ReadTask(Attempt(req, a))]
    ensures var r := OnReadAnswer(RunNext(s), |s.readCallbacks|, success, Some(value));
      && r.calls == s.calls + [ReadCall(req.uuid, req.timeoutMillis)]
      && (success || DecideRetry(a, req.rereadCount) == Fail ==>
            r.outputs == s.outputs + [ReadResult(success, if success then Some(value) else None)] && r.handler.ready == [])
      && (!success && DecideRetry(a, req.rereadCount) != Fail ==>
            r.outputs == s.outputs && r.handler.ready == [ReadTask(Attempt(req, a + 1))])
  {
    var s1 := RunNext(s);
    assert s1.readCallbacks[|s.readCallbacks|] == Attempt(req, a);
    assert s1.calls == s.calls + [ReadCall(req.uuid, req.timeoutMillis)];
  }

  /** The reread loop agrees with the retry policy run: `k` reads reach the
      driver and the caller gets exactly one result, with the value only on
      success. */
  lemma {:induction false} ReadRoundsFollowPolicy(s: State, req: ReadRequest, a: nat, outcomes: seq<bool>, ok: bool, value: ByteArray)
    requires s.handler.ready == [ReadTask(Attempt(req, a))]
    requires RunRetries(outcomes, a, req.rereadCount) == Finished(|outcomes|, ok)
    ensures var r := ReadRounds(s, outcomes, value);
      && r.calls == s.calls + Repeat(ReadCall(req.uuid, req.timeoutMillis), |outcomes|)
      && r.outputs == s.outputs + [ReadResult(ok, if ok then Some(value) else None)]
      && r.handler.ready == []
    decreases |outcomes|
  {
    var call := ReadCall(req.uuid, req.timeoutMillis);
    OneReadRound(s, req, a, outcomes[0], value);
    var s2 := OnReadAnswer(RunNext(s), |s.readCallbacks|, outcomes[0], Some(value));
    if outcomes[0] || DecideRetry(a, req.rereadCount) == Fail {
      assert |outcomes| == 1 && outcomes[1..] == [];
    } else {
      var n := a + 1;
      ReadRoundsFollowPolicy(s2, req, n, outcomes[1..], ok, value);
      RepeatAfter(s.calls, call, |outcomes|);
    }
  }

  /** `readData` with budget `R` against a driver that always fails: `R + 1`
      reads when `R > 0`, one otherwise, then a single failure without a value. */
  lemma AlwaysFailingRead(s: State, req: ReadRequest, value: ByteArray)
    requires s.handler.ready == []
    ensures var outcomes := Repeat(false, Budget(req.rereadCount) + 1);
      var r := ReadRounds(ReadData(s, req), outcomes, value);
      && r.calls == s.calls + Repeat(ReadCall(req.uuid, req.timeoutMillis), Budget(req.rereadCount) + 1)
      && r.outputs == s.outputs + [ReadResult(false, None)]
  {
    var outcomes := Repeat(false, Budget(req.rereadCount) + 1);
    AlwaysFailingRetries(outcomes, req.rereadCount);
    ReadRoundsFollowPolicy(ReadData(s, req), req, 0, outcomes, false, value);
  }

  /** The facade does not forget a send closure once answered: a driver that
      answers twice makes the caller's callback run twice. */
  lemma SecondAnswerRepeatsCallback(s: State, i: nat)
    requires i < |s.sendCallbacks|
    ensures OnSendAnswer(OnSendAnswer(s, i, true), i, true).outputs
            == s.outputs + [SendResult(s.sendCallbacks[i].request.data, true), SendResult(s.sendCallbacks[i].request.data, true)]
  {
  }

  // ----- Adapter broadcasts ---------------------------------------------------

  /** The adapter turning off disconnects the client before the application
      hears of it. */
  lemma TurningOffDisconnects(s: State)
    requires s.switchReceiver && s.switchListeners
    ensures var r := OnSwitch(s, ActionStateChanged, Some(StateTurningOff));
      r == Disconnect(s).(outputs := Disconnect(s).outputs + [TurnOffNotified])
  {
  }
}
