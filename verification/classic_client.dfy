/** The Classic (BR/EDR) driver: discovery through a broadcast receiver,
    bonding before connecting, one RFCOMM socket for the assigned service,
    a reader thread with a failure budget, and blocking writes raced by a
    timer.

    The platform's answers are parameters: the remote device's bond state,
    whether the socket could be created and connected, what each read of the
    input stream returns, and whether a write completes.  The reader thread's
    reads are taken as one run inside `receiveData`; the blocking write is
    split into its start and its finish so the timer can fire between them,
    and the blocking socket connect takes a flag saying whether the timer
    fired while it blocked. */
module ClassicClient {
  import opened Kotlin
  import opened Client

  /** `BluetoothDevice.BOND_NONE` / `BOND_BONDING` / `BOND_BONDED`. */
  const BondNone: int32 := 10
  const BondBonding: int32 := 11
  const BondBonded: int32 := 12

  /** The receive buffer when no MTU was given. */
  const DefaultBufferSize: int32 := 102
  /** Read failures the reader thread tolerates before giving up. */
  const ReadFailureBudget: nat := 3

  /** A remote device as the platform hands it over; `uuids` is the cached
      service UUID array, null until an SDP query has filled it. */
  datatype RemoteDevice = RemoteDevice(address: string, name: Option<string>, typeCode: int32, bondCode: int32,
                                       uuids: Option<seq<Uuid>>)

  /** `bluetoothSocket`: created for a service UUID, connected or not. */
  datatype Socket = Socket(serviceUuid: Uuid, connected: bool)

  datatype TimerTask = ConnectTimer | WriteTimer(callback: nat)

  datatype NativeCall =
    | DiscoveryStarted
    | DiscoveryCancelled
    | BondRequested(address: string)
    | UuidsFetched(address: string)       // fetchUuidsWithSdp
    | SocketClosed
    | SocketConnected(serviceUuid: Uuid)
    | ReaderStarted(bufferSize: int32)
    | BytesWritten(data: ByteArray)
    | TimerCancelledForGood

  datatype Out =
    | StateOut(state: ConnectState)
    | DeviceOut(device: Device)
    | SendOut(callback: nat, success: bool)
    | ReceiveOut(callback: nat, data: seq<int8>)

  datatype State = State(
    serviceUuid: Option<Uuid>,
    registered: bool,             // receiverFilter != null
    receiverLog: seq<bool>,       // registerReceiver (true) / unregisterReceiver (false), in order
    socket: Option<Socket>,
    device: Option<string>,       // realDevice, by address
    mtu: int32,
    timeout: Option<TimerTask>,
    writing: set<nat>,            // callbacks of writes still blocked in `write`
    next: nat,
    out: seq<Out>,
    native: seq<NativeCall>)

  function Init(serviceUuid: Option<Uuid>): (s: State)
    ensures !s.registered && s.receiverLog == [] && s.socket == None && s.device == None
  {
    State(serviceUuid, false, [], None, None, 0, None, {}, 0, [], [])
  }

  function Native(s: State, c: NativeCall): State
  {
    s.(native := s.native + [c])
  }

  function Emit(s: State, o: Out): State
  {
    s.(out := s.out + [o])
  }

  function CancelTimeout(s: State): (r: State)
    ensures r == s.(timeout := None)
  {
    s.(timeout := None)
  }

  // ----- Scanning and the state receiver -------------------------------------

  /** A remote device as reported to the scan callback.  The source builds
      `Device` from three values where the constructor takes four; the model
      passes `bonded = false`. */
  function ToDevice(d: RemoteDevice): (r: Device)
    ensures r.address == d.address && r.name == d.name && r.deviceType == DeviceTypeOf(d.typeCode)
  {
    Device(d.address, d.name, DeviceTypeOf(d.typeCode), false)
  }

  /** `registerStateReceiver`: only when not registered already. */
  function RegisterReceiver(s: State): (r: State)
    ensures r.registered
    ensures s.registered ==> r == s
    ensures !s.registered ==> r.receiverLog == s.receiverLog + [true]
  {
    if s.registered then s else s.(registered := true, receiverLog := s.receiverLog + [true])
  }

  /** How many bonded devices `startScan` gets through: the log line of each
      reads the size of its UUID array, which throws at the first null one. */
  function ReportedCount(bonded: seq<RemoteDevice>): (k: nat)
    ensures k <= |bonded|
    ensures forall i :: 0 <= i < k ==> bonded[i].uuids.Some?
    ensures k < |bonded| ==> bonded[k].uuids.None?
  {
    if |bonded| == 0 || bonded[0].uuids.None? then 0 else 1 + ReportedCount(bonded[1..])
  }

  /** The bonded devices' reports: each device with a UUID array gets an SDP
      fetch and is then handed to the scan callback; the walk stops at the
      first device without one. */
  function ReportBonded(s: State, bonded: seq<RemoteDevice>): (r: State)
    ensures var k := ReportedCount(bonded);
      && r.out == s.out + seq(k, i requires 0 <= i < k => DeviceOut(ToDevice(bonded[i])))
      && r.native == s.native + seq(k, i requires 0 <= i < k => UuidsFetched(bonded[i].address))
    ensures r == s.(out := r.out, native := r.native)
    decreases |bonded|
  {
    if |bonded| == 0 || bonded[0].uuids.None? then s
    else
      var s1 := Emit(Native(s, UuidsFetched(bonded[0].address)), DeviceOut(ToDevice(bonded[0])));
      ReportsSplit(bonded, ReportedCount(bonded));
      ReportBonded(s1, bonded[1..])
  }

  /** The first device's report followed by the rest's. */
  lemma ReportsSplit(bonded: seq<RemoteDevice>, k: nat)
    requires 0 < k <= |bonded|
    ensures seq(k, i requires 0 <= i < k => DeviceOut(ToDevice(bonded[i])))
      == [DeviceOut(ToDevice(bonded[0]))] + seq(k - 1, i requires 0 <= i < k - 1 => DeviceOut(ToDevice(bonded[1..][i])))
    ensures seq(k, i requires 0 <= i < k => UuidsFetched(bonded[i].address))
      == [UuidsFetched(bonded[0].address)] + seq(k - 1, i requires 0 <= i < k - 1 => UuidsFetched(bonded[1..][i].address))
  {
  }

  /** `startScan`: register the receiver, start discovery, then report the
      bonded devices at once.  The second result is false when a bonded
      device with a null UUID array made the call throw part way. */
  function StartScan(s: State, bonded: seq<RemoteDevice>): (r: (State, bool))
    ensures r.0.registered
    ensures r.1 <==> forall i :: 0 <= i < |bonded| ==> bonded[i].uuids.Some?
    ensures var k := ReportedCount(bonded);
      && r.0.out == s.out + seq(k, i requires 0 <= i < k => DeviceOut(ToDevice(bonded[i])))
      && r.0.native == s.native + [DiscoveryStarted] + seq(k, i requires 0 <= i < k => UuidsFetched(bonded[i].address))
  {
    var s1 := Native(RegisterReceiver(s), DiscoveryStarted);
    (ReportBonded(s1, bonded), ReportedCount(bonded) == |bonded|)
  }

  /** `stopScan`: cancels discovery only while it runs. */
  function StopScan(s: State, discovering: bool): (r: State)
    ensures r.native == s.native + (if discovering then [DiscoveryCancelled] else [])
    ensures r.out == s.out
  {
    if discovering then Native(s, DiscoveryCancelled) else s
  }

  // ----- Connection -----------------------------------------------------------

  /** `createRfcommSocket`: close the current socket, create one for the
      service and connect it.  If creating throws, the closed socket stays
      in the field; if connecting throws, the new unconnected socket stays. */
  function CreateSocket(s: State, createAnswer: bool, connectAnswer: bool): (r: (State, bool))
    requires s.serviceUuid.Some?
    ensures r.1 <==> createAnswer && connectAnswer
    ensures createAnswer ==> r.0.socket == Some(Socket(s.serviceUuid.value, connectAnswer))
    ensures !createAnswer ==> r.0.socket == (if s.socket.Some? then Some(s.socket.value.(connected := false)) else None)
    ensures r.0.out == s.out && r.0.timeout == s.timeout && r.0.device == s.device
    ensures r.0.writing == s.writing && r.0.next == s.next && r.0.receiverLog == s.receiverLog && r.0.registered == s.registered
  {
    var s1 := if s.socket.Some? then Native(s, SocketClosed).(socket := Some(s.socket.value.(connected := false))) else s;
    if !createAnswer then (s1, false)
    else if connectAnswer then
      (Native(s1, SocketConnected(s.serviceUuid.value)).(socket := Some(Socket(s.serviceUuid.value, true))), true)
    else (s1.(socket := Some(Socket(s.serviceUuid.value, false))), false)
  }

  /** What the private `connect(realDevice)` reports for a bonded device. */
  function Verdict(serviceUuid: Option<Uuid>, createAnswer: bool, connectAnswer: bool): ConnectState
  {
    if serviceUuid.None? || (createAnswer && connectAnswer) then Connected else ConnectError
  }

  /** The private `connect(realDevice)`: an unbonded device is asked to bond
      and nothing else happens (the connect timeout stays armed).  Otherwise
      the device is remembered, the socket decides CONNECTED or CONNECT_ERROR
      when a service UUID is set (CONNECTED without one), and the timeout is
      cancelled.  The socket's `connect()` blocks the calling thread;
      `timerMidConnect` says the timer thread ran the armed timeout task
      while it blocked, so the timeout's report comes before the verdict. */
  function ConnectRemote(s: State, address: string, bondCode: int32, createAnswer: bool, connectAnswer: bool,
                         timerMidConnect: bool): (r: State)
    ensures bondCode == BondNone ==> r == Native(s, BondRequested(address))
    ensures bondCode != BondNone ==>
      && r.device == Some(address) && r.timeout == None
      && r.out == (if s.serviceUuid.Some? && createAnswer && timerMidConnect then OnTimer(s).out else s.out)
                  + [StateOut(Verdict(s.serviceUuid, createAnswer, connectAnswer))]
      && (s.serviceUuid.None? ==> r.socket == s.socket)
    ensures r.writing == s.writing && r.next == s.next && r.receiverLog == s.receiverLog && r.registered == s.registered
  {
    if bondCode == BondNone then Native(s, BondRequested(address))
    else
      var s1 := s.(device := Some(address));
      var s2 := match s1.serviceUuid
        case Some(_) =>
          var (s3, ok) := CreateSocket(s1, createAnswer, connectAnswer);
          var s4 := if createAnswer && timerMidConnect then OnTimer(s3) else s3;
          Emit(s4, StateOut(if ok then Connected else ConnectError))
        case None => Emit(s1, StateOut(Connected));
      CancelTimeout(s2)
  }

  /** `connect(device, mtu, timeoutMillis, stateCallback)`: report CONNECTING
      and arm the connect timeout before any bonding or socket work. */
  function Connect(s: State, device: Device, mtu: int32, bondCode: int32, createAnswer: bool, connectAnswer: bool,
                   timerMidConnect: bool): (r: State)
    ensures r.mtu == mtu
    ensures bondCode == BondNone ==>
      r.out == s.out + [StateOut(Connecting)] && r.timeout == Some(ConnectTimer) && r.socket == s.socket
    ensures bondCode != BondNone ==>
      r.out == s.out + [StateOut(Connecting)]
               + (if s.serviceUuid.Some? && createAnswer && timerMidConnect then [StateOut(ConnectTimeout)] else [])
               + [StateOut(Verdict(s.serviceUuid, createAnswer, connectAnswer))]
      && r.timeout == None && r.device == Some(device.address)
  {
    var s1 := Emit(s.(mtu := mtu), StateOut(Connecting)).(timeout := Some(ConnectTimer));
    ConnectRemote(s1, device.address, bondCode, createAnswer, connectAnswer, timerMidConnect)
  }

  /** `supportedServices()`: the device's advertised UUIDs as services of
      unknown type without characteristics; null without a device or UUIDs. */
  function SupportedServices(s: State, uuids: Option<seq<Uuid>>): (r: Option<seq<Service>>)
    ensures r.Some? <==> s.device.Some? && uuids.Some?
    ensures r.Some? ==> |r.value| == |uuids.value|
    ensures r.Some? ==> forall i :: 0 <= i < |r.value| ==> r.value[i] == Service(uuids.value[i], UnknownService, None, None)
  {
    if s.device.None? || uuids.None? then None
    else Some(seq(|uuids.value|, i requires 0 <= i < |uuids.value| => Service(uuids.value[i], UnknownService, None, None)))
  }

  /** `assignService`: a known device gets a new socket for the service at
      once (its outcome is not reported). */
  function AssignService(s: State, service: Service, createAnswer: bool, connectAnswer: bool): (r: State)
    ensures r.serviceUuid == Some(service.uuid) && r.out == s.out
    ensures s.device.None? ==> r == s.(serviceUuid := Some(service.uuid))
    ensures s.device.Some? && createAnswer ==> r.socket == Some(Socket(service.uuid, connectAnswer))
  {
    var s1 := s.(serviceUuid := Some(service.uuid));
    if s1.device.Some? then CreateSocket(s1, createAnswer, connectAnswer).0 else s1
  }

  /** `checkClientValid`: a device, a service UUID and a socket; whether the
      socket is connected is not asked. */
  predicate Valid(s: State)
  {
    s.device.Some? && s.serviceUuid.Some? && s.socket.Some?
  }

  // ----- The reader thread ----------------------------------------------------

  /** What one turn of the reader loop sees: a chunk read, a read that threw
      `IOException`, a read that hit the end of the stream (it returns -1 and
      `ByteArray(-1)` throws an exception the loop does not catch), or the
      socket no longer connected at the loop test. */
  datatype ReadAnswer = Bytes(chunk: seq<int8>) | ReadFailed | EndOfStream | SocketDown

  /** Why the reader stopped, if it did. */
  datatype LoopEnd = SocketGone | BudgetSpent | ThreadDied | StillReading

  datatype LoopResult = LoopResult(delivered: seq<seq<int8>>, failures: nat, consumed: nat, ending: LoopEnd)

  /** `ByteArray(if (mtu > 0) mtu else 102)`. */
  function BufferSize(mtu: int32): (n: int32)
    ensures n > 0
    ensures mtu > 0 ==> n == mtu
    ensures mtu <= 0 ==> n == DefaultBufferSize
  {
    if mtu > 0 then mtu else DefaultBufferSize
  }

  /** The reader loop, one answer at a time, with `failures` failures so far. */
  function ReceiveRun(answers: seq<ReadAnswer>, failures: nat): (r: LoopResult)
    decreases |answers|
  {
    if failures >= ReadFailureBudget then LoopResult([], failures, 0, BudgetSpent)
    else if |answers| == 0 then LoopResult([], failures, 0, StillReading)
    else match answers[0]
      case SocketDown => LoopResult([], failures, 1, SocketGone)
      case EndOfStream => LoopResult([], failures, 1, ThreadDied)
      case ReadFailed =>
        var r := ReceiveRun(answers[1..], failures + 1);
        r.(consumed := r.consumed + 1)
      case Bytes(c) =>
        var r := ReceiveRun(answers[1..], failures);
        r.(delivered := [c] + r.delivered, consumed := r.consumed + 1)
  }

  /** Failed reads among `answers`. */
  function CountFailed(answers: seq<ReadAnswer>): (n: nat)
    ensures n <= |answers|
  {
    if |answers| == 0 then 0 else (if answers[0].ReadFailed? then 1 else 0) + CountFailed(answers[1..])
  }

  /** The chunks among `answers`, in order. */
  function Chunks(answers: seq<ReadAnswer>): (cs: seq<seq<int8>>)
    ensures |cs| <= |answers|
  {
    if |answers| == 0 then [] else (if answers[0].Bytes? then [answers[0].chunk] else []) + Chunks(answers[1..])
  }

  /** Nothing that ends the loop by itself. */
  predicate Continues(a: ReadAnswer)
  {
    a.Bytes? || a.ReadFailed?
  }

  /** Counting over a prefix of one or more answers splits off the first. */
  lemma PrefixCons(answers: seq<ReadAnswer>, k: nat)
    requires k < |answers|
    ensures CountFailed(answers[..k + 1]) == (if answers[0].ReadFailed? then 1 else 0) + CountFailed(answers[1..][..k])
    ensures Chunks(answers[..k + 1]) == (if answers[0].Bytes? then [answers[0].chunk] else []) + Chunks(answers[1..][..k])
  {
    assert answers[..k + 1][1..] == answers[1..][..k];
  }

  /** The budget is cumulative: the loop consumes answers until the socket
      goes down, the stream ends, or the third failure in total (successful
      reads in between do not reset the count); every chunk before that is
      delivered in order, and CONNECT_ERROR follows exactly when the budget
      is spent. */
  lemma ReceiveRunFacts(answers: seq<ReadAnswer>, failures: nat)
    requires failures <= ReadFailureBudget
    ensures var r := ReceiveRun(answers, failures);
      && r.consumed <= |answers|
      && r.failures == failures + CountFailed(answers[..r.consumed])
      && r.failures <= ReadFailureBudget
      && (r.ending == BudgetSpent <==> r.failures == ReadFailureBudget)
      && r.delivered == Chunks(answers[..r.consumed])
      && (forall i :: 0 <= i < r.consumed - 1 ==> Continues(answers[i]))
      && (r.ending == StillReading ==> r.consumed == |answers|)
      && (r.ending == SocketGone ==> r.consumed > 0 && answers[r.consumed - 1] == SocketDown)
      && (r.ending == ThreadDied ==> r.consumed > 0 && answers[r.consumed - 1] == EndOfStream)
  {
    ReceiveRunCounts(answers, failures);
    ReceiveRunChunks(answers, failures);
    ReceiveRunEnding(answers, failures);
  }

  lemma {:induction false} ReceiveRunCounts(answers: seq<ReadAnswer>, failures: nat)
    requires failures <= ReadFailureBudget
    ensures var r := ReceiveRun(answers, failures);
      && r.consumed <= |answers|
      && r.failures == failures + CountFailed(answers[..r.consumed])
      && r.failures <= ReadFailureBudget
      && (r.ending == BudgetSpent <==> r.failures == ReadFailureBudget)
    decreases |answers|
  {
    if failures >= ReadFailureBudget || |answers| == 0 {
      assert answers[..0] == [];
    } else if answers[0].SocketDown? || answers[0].EndOfStream? {
      assert answers[..1] == [answers[0]];
    } else {
      var f := if answers[0].ReadFailed? then failures + 1 else failures;
      ReceiveRunCounts(answers[1..], f);
      PrefixCons(answers, ReceiveRun(answers[1..], f).consumed);
    }
  }

  lemma {:induction false} ReceiveRunChunks(answers: seq<ReadAnswer>, failures: nat)
    requires failures <= ReadFailureBudget
    ensures var r := ReceiveRun(answers, failures);
      r.consumed <= |answers| && r.delivered == Chunks(answers[..r.consumed])
    decreases |answers|
  {
    if failures >= ReadFailureBudget || |answers| == 0 {
      assert answers[..0] == [];
    } else if answers[0].SocketDown? || answers[0].EndOfStream? {
      assert answers[..1] == [answers[0]];
    } else {
      var f := if answers[0].ReadFailed? then failures + 1 else failures;
      ReceiveRunChunks(answers[1..], f);
      PrefixCons(answers, ReceiveRun(answers[1..], f).consumed);
    }
  }

  lemma {:induction false} ReceiveRunEnding(answers: seq<ReadAnswer>, failures: nat)
    ensures var r := ReceiveRun(answers, failures);
      && r.consumed <= |answers|
      && (forall i :: 0 <= i < r.consumed - 1 ==> Continues(answers[i]))
      && (r.ending == StillReading ==> r.consumed == |answers|)
      && (r.ending == SocketGone ==> r.consumed > 0 && answers[r.consumed - 1] == SocketDown)
      && (r.ending == ThreadDied ==> r.consumed > 0 && answers[r.consumed - 1] == EndOfStream)
    decreases |answers|
  {
    if failures < ReadFailureBudget && |answers| > 0 && Continues(answers[0]) {
      var f := if answers[0].ReadFailed? then failures + 1 else failures;
      ReceiveRunEnding(answers[1..], f);
      var r := ReceiveRun(answers, failures);
      forall i | 0 <= i < r.consumed - 1 ensures Continues(answers[i]) {
        if i > 0 {
          assert answers[i] == answers[1..][i - 1];
        }
      }
    }
  }

  /** Worked example: failures separated by successful reads still end the
      loop at the third one. */
  lemma InterleavedFailuresSpendTheBudget(a: seq<int8>, b: seq<int8>, later: seq<ReadAnswer>)
    ensures ReceiveRun([ReadFailed, Bytes(a), ReadFailed, Bytes(b), ReadFailed] + later, 0)
            == LoopResult([a, b], 3, 5, BudgetSpent)
  {
    var xs := [ReadFailed, Bytes(a), ReadFailed, Bytes(b), ReadFailed] + later;
    assert xs[1..][1..][1..][1..][1..] == later;
    assert ReceiveRun(later, 3) == LoopResult([], 3, 0, BudgetSpent);
    assert xs[1..][1..][1..][1..] == [ReadFailed] + later;
    assert ReceiveRun([ReadFailed] + later, 2) == LoopResult([], 3, 1, BudgetSpent);
    assert xs[1..][1..][1..] == [Bytes(b), ReadFailed] + later;
    assert ReceiveRun([Bytes(b), ReadFailed] + later, 2) == LoopResult([b], 3, 2, BudgetSpent);
    assert xs[1..][1..] == [ReadFailed, Bytes(b), ReadFailed] + later;
    assert ReceiveRun([ReadFailed, Bytes(b), ReadFailed] + later, 1) == LoopResult([b], 3, 3, BudgetSpent);
    assert xs[1..] == [Bytes(a), ReadFailed, Bytes(b), ReadFailed] + later;
    assert ReceiveRun([Bytes(a), ReadFailed, Bytes(b), ReadFailed] + later, 1) == LoopResult([a, b], 3, 4, BudgetSpent);
  }

  /** The reader thread as a loop, as the source writes it. */
  method ReceiveLoop(answers: seq<ReadAnswer>) returns (r: LoopResult)
    ensures r == ReceiveRun(answers, 0)
    ensures r.failures <= ReadFailureBudget && r.consumed <= |answers|
    ensures r.ending == BudgetSpent <==> r.failures == ReadFailureBudget
    ensures r.failures == CountFailed(answers[..r.consumed])
    ensures r.delivered == Chunks(answers[..r.consumed])
  {
    var i := 0;
    var failures: nat := 0;
    var delivered: seq<seq<int8>> := [];
    var ending := StillReading;
    while ending == StillReading && failures < ReadFailureBudget && i < |answers|
      invariant 0 <= i <= |answers| && failures <= ReadFailureBudget
      invariant ending == StillReading || ending == SocketGone || ending == ThreadDied
      invariant ending == StillReading ==>
        var rest := ReceiveRun(answers[i..], failures);
        ReceiveRun(answers, 0) == rest.(delivered := delivered + rest.delivered, consumed := i + rest.consumed)
      invariant ending != StillReading ==>
        ReceiveRun(answers, 0) == LoopResult(delivered, failures, i, ending)
      decreases |answers| - i
    {
      assert answers[i..][0] == answers[i] && answers[i..][1..] == answers[i + 1..];
      var a := answers[i];
      i := i + 1;
      if a == SocketDown {
        ending := SocketGone;
      } else if a == EndOfStream {
        ending := ThreadDied;
      } else if a == ReadFailed {
        failures := failures + 1;
      } else {
        delivered := delivered + [a.chunk];
      }
    }
    if ending == StillReading {
      assert answers[i..] == [] || failures >= ReadFailureBudget;
      if failures >= ReadFailureBudget {
        ending := BudgetSpent;
      }
    }
    r := LoopResult(delivered, failures, i, ending);
    ReceiveRunFacts(answers, 0);
  }

  /** `receiveData(uuid, onReceive)`: false without I/O unless valid;
      otherwise the reader runs over `answers`, each chunk reaches the
      closure, and CONNECT_ERROR follows a spent budget.  The UUID argument
      is ignored. */
  function ReceiveData(s: State, answers: seq<ReadAnswer>): (r: (State, bool))
    ensures r.1 <==> Valid(s)
    ensures !Valid(s) ==> r.0 == s
    ensures Valid(s) ==>
      var run := ReceiveRun(answers, 0);
      r.0.out == s.out + seq(|run.delivered|, i requires 0 <= i < |run.delivered| => ReceiveOut(s.next, run.delivered[i]))
                       + (if run.ending == BudgetSpent then [StateOut(ConnectError)] else [])
  {
    if !Valid(s) then (s, false)
    else
      var run := ReceiveRun(answers, 0);
      var s1 := Native(s, ReaderStarted(BufferSize(s.mtu))).(next := s.next + 1);
      var chunks := seq(|run.delivered|, i requires 0 <= i < |run.delivered| => ReceiveOut(s.next, run.delivered[i]));
      var s2 := s1.(out := s1.out + chunks);
      (if run.ending == BudgetSpent then Emit(s2, StateOut(ConnectError)) else s2, true)
  }

  // ----- Writing --------------------------------------------------------------

  /** `sendData` up to the blocking `write`: without a valid client the
      callback hears false at once; otherwise the write timeout is armed and
      the write starts.  The source's `sendData` takes a `ResultCallback` and
      calls it with one argument, which matches neither callback type it
      declares; the model reports one boolean. */
  function StartSend(s: State, data: ByteArray): (r: State)
    ensures r.next == s.next + 1
    ensures !Valid(s) ==> r.out == s.out + [SendOut(s.next, false)] && r.writing == s.writing && r.timeout == s.timeout
    ensures Valid(s) ==> r.out == s.out && r.writing == s.writing + {s.next} && r.timeout == Some(WriteTimer(s.next))
  {
    var cb := s.next;
    var s0 := s.(next := s.next + 1);
    if !Valid(s) then Emit(s0, SendOut(cb, false))
    else Native(s0.(timeout := Some(WriteTimer(cb)), writing := s0.writing + {cb}), BytesWritten(data))
  }

  /** The blocking `write` returns (`success`) or throws: the callback hears
      the outcome and the timeout slot is cleared, whoever armed it. */
  function FinishSend(s: State, callback: nat, success: bool): (r: State)
    ensures callback !in s.writing ==> r == s
    ensures callback in s.writing ==>
      r.out == s.out + [SendOut(callback, success)] && r.timeout == None && r.writing == s.writing - {callback}
  {
    if callback !in s.writing then s
    else CancelTimeout(Emit(s.(writing := s.writing - {callback}), SendOut(callback, success)))
  }

  // ----- Teardown -------------------------------------------------------------

  /** `disconnect()`: only with a socket.  Closes and drops it, forgets the
      device, cancels the timeout, reports DISCONNECTED. */
  function Disconnect(s: State): (r: State)
    ensures s.socket.None? ==> r == s
    ensures s.socket.Some? ==>
      && r.socket == None && r.device == None && r.timeout == None
      && r.out == s.out + [StateOut(Disconnected)]
    ensures r.registered == s.registered && r.receiverLog == s.receiverLog
  {
    if s.socket.None? then s
    else Emit(Native(s, SocketClosed).(socket := None, device := None, timeout := None), StateOut(Disconnected))
  }

  /** `release()`: disconnect, cancel the timer for good, unregister the
      receiver if it is registered. */
  function Release(s: State): (r: State)
    ensures !r.registered
    ensures s.registered ==> r.receiverLog == s.receiverLog + [false]
    ensures !s.registered ==> r.receiverLog == s.receiverLog
    ensures r.out == Disconnect(s).out
  {
    var s1 := Native(Disconnect(s), TimerCancelledForGood);
    if s1.registered then s1.(registered := false, receiverLog := s1.receiverLog + [false]) else s1
  }

  // ----- Events ---------------------------------------------------------------

  datatype Event =
    | StartScanEvent(bonded: seq<RemoteDevice>)
    | StopScanEvent(discovering: bool)
    | ConnectEvent(device: Device, mtu: int32, bondCode: int32, createAnswer: bool, connectAnswer: bool,
                   timerMidConnect: bool)
    | AssignServiceEvent(service: Service, createAnswer: bool, connectAnswer: bool)
    | ReceiveDataEvent(answers: seq<ReadAnswer>)
    | SendDataEvent(data: ByteArray)
    | WriteFinished(callback: nat, success: bool)
    | DisconnectEvent
    | ReleaseEvent
    | DeviceFound(found: Option<RemoteDevice>)                     // ACTION_FOUND
    | AclDisconnected                                              // ACTION_ACL_DISCONNECTED
    | BondStateChanged(extraBondState: Option<int32>, bondedDevice: Option<RemoteDevice>,
                       createAnswer: bool, connectAnswer: bool, timerMidConnect: bool)    // ACTION_BOND_STATE_CHANGED
    | TimerFires

  /** A broadcast, which reaches the driver only while its receiver is registered. */
  predicate IsBroadcast(e: Event)
  {
    e.DeviceFound? || e.AclDisconnected? || e.BondStateChanged?
  }

  /** `stateReceiver.onReceive` for a bond-state change: BOND_BONDED
      re-enters the private connect for the device in the intent, whichever
      device it is; the extra defaults to BOND_NONE. */
  function OnBondStateChanged(s: State, extra: Option<int32>, device: Option<RemoteDevice>, createAnswer: bool, connectAnswer: bool,
                              timerMidConnect: bool): (r: State)
    ensures (extra != Some(BondBonded) || device.None?) ==> r == s
    ensures extra == Some(BondBonded) && device.Some? ==>
      r == ConnectRemote(s, device.value.address, device.value.bondCode, createAnswer, connectAnswer, timerMidConnect)
  {
    var bondState := match extra case Some(v) => v case None => BondNone;
    if bondState == BondBonded && device.Some? then
      ConnectRemote(s, device.value.address, device.value.bondCode, createAnswer, connectAnswer, timerMidConnect)
    else s
  }

  /** The armed timeout task runs; it clears the slot first. */
  function OnTimer(s: State): (r: State)
    ensures r.timeout == None
    ensures s.timeout == Some(ConnectTimer) ==> r.out == s.out + [StateOut(ConnectTimeout)]
    ensures s.timeout.Some? && s.timeout.value.WriteTimer? ==> r.out == s.out + [SendOut(s.timeout.value.callback, false)]
    ensures s.timeout.None? ==> r == s
  {
    match s.timeout
    case None => s
    case Some(ConnectTimer) => Emit(CancelTimeout(s), StateOut(ConnectTimeout))
    case Some(WriteTimer(cb)) => Emit(CancelTimeout(s), SendOut(cb, false))
  }

  function Step(s: State, e: Event): (r: State)
  {
    if IsBroadcast(e) && !s.registered then s
    else match e
      case StartScanEvent(bonded) => StartScan(s, bonded).0
      case StopScanEvent(discovering) => StopScan(s, discovering)
      case ConnectEvent(device, mtu, bondCode, createAnswer, connectAnswer, timerMidConnect) =>
        Connect(s, device, mtu, bondCode, createAnswer, connectAnswer, timerMidConnect)
      case AssignServiceEvent(service, createAnswer, connectAnswer) => AssignService(s, service, createAnswer, connectAnswer)
      case ReceiveDataEvent(answers) => ReceiveData(s, answers).0
      case SendDataEvent(data) => StartSend(s, data)
      case WriteFinished(callback, success) => FinishSend(s, callback, success)
      case DisconnectEvent => Disconnect(s)
      case ReleaseEvent => Release(s)
      case DeviceFound(found) =>
        if found.Some? then Emit(s, DeviceOut(ToDevice(found.value))) else s
      case AclDisconnected => Disconnect(s)
      case BondStateChanged(extra, device, createAnswer, connectAnswer, timerMidConnect) =>
        OnBondStateChanged(s, extra, device, createAnswer, connectAnswer, timerMidConnect)
      case TimerFires => OnTimer(s)
  }

  function Run(s: State, events: seq<Event>): (r: State)
    decreases |events|
  {
    if |events| == 0 then s else Run(Step(s, events[0]), events[1..])
  }

  // ----- Properties -----------------------------------------------------------

  /** Registrations and unregistrations alternate, starting with a
      registration, and the flag says which came last: the receiver is never
      registered twice or unregistered while not registered. */
  predicate ReceiverBalanced(s: State)
  {
    && (forall i :: 0 <= i < |s.receiverLog| ==> s.receiverLog[i] == (i % 2 == 0))
    && (s.registered <==> |s.receiverLog| % 2 == 1)
  }

  lemma StepKeepsReceiverBalanced(s: State, e: Event)
    requires ReceiverBalanced(s)
    ensures ReceiverBalanced(Step(s, e))
  {
    if e.StartScanEvent? {
      StartScanKeepsReceiverBalanced(s, e.bonded);
    } else if e.ReleaseEvent? {
      ReleaseKeepsReceiverBalanced(s);
    } else {
      StepLeavesReceiver(s, e);
    }
  }

  lemma StartScanKeepsReceiverBalanced(s: State, bonded: seq<RemoteDevice>)
    requires ReceiverBalanced(s)
    ensures ReceiverBalanced(StartScan(s, bonded).0)
  {
    var r := RegisterReceiver(s);
    assert StartScan(s, bonded).0.receiverLog == r.receiverLog && StartScan(s, bonded).0.registered == r.registered;
  }

  lemma ReleaseKeepsReceiverBalanced(s: State)
    requires ReceiverBalanced(s)
    ensures ReceiverBalanced(Release(s))
  {
    assert Disconnect(s).receiverLog == s.receiverLog && Disconnect(s).registered == s.registered;
  }

  /** Only `startScan` and `release` touch the receiver. */
  lemma StepLeavesReceiver(s: State, e: Event)
    requires !e.StartScanEvent? && !e.ReleaseEvent?
    ensures Step(s, e).receiverLog == s.receiverLog && Step(s, e).registered == s.registered
  {
    if IsBroadcast(e) && !s.registered {
    } else if e.StopScanEvent? || e.ConnectEvent? || e.AssignServiceEvent? {
    } else if e.ReceiveDataEvent? || e.SendDataEvent? || e.WriteFinished? {
    } else if e.DisconnectEvent? || e.DeviceFound? || e.AclDisconnected? {
    } else {
    }
  }

  lemma {:induction false} ReceiverRegisteredAtMostOnceAtATime(s: State, events: seq<Event>)
    requires ReceiverBalanced(s)
    ensures ReceiverBalanced(Run(s, events))
    decreases |events|
  {
    if |events| > 0 {
      StepKeepsReceiverBalanced(s, events[0]);
      ReceiverRegisteredAtMostOnceAtATime(Step(s, events[0]), events[1..]);
    }
  }

  /** Bonding gates the connect: an unbonded device only gets a bond
      request, with the timeout still armed; if the receiver is registered,
      the BOND_BONDED broadcast finishes the connect, and if it is not, only
      the timeout is left. */
  lemma BondingGatesConnect(s: State, device: Device, mtu: int32, createAnswer: bool, connectAnswer: bool, name: Option<string>, typeCode: int32)
    ensures var c := Step(s, ConnectEvent(device, mtu, BondNone, createAnswer, connectAnswer, false));
            var bonded := RemoteDevice(device.address, name, typeCode, BondBonded, None);
            var b := Step(c, BondStateChanged(Some(BondBonded), Some(bonded), createAnswer, connectAnswer, false));
            && c.out == s.out + [StateOut(Connecting)] && c.timeout == Some(ConnectTimer)
            && c.native == s.native + [BondRequested(device.address)]
            && (s.registered ==>
                  b.out == c.out + [StateOut(Verdict(s.serviceUuid, createAnswer, connectAnswer))] && b.timeout == None)
            && (!s.registered ==> b == c && Step(c, TimerFires).out == c.out + [StateOut(ConnectTimeout)])
  {
  }

  /** The connect timeout races the blocking socket connect: when the timer
      fires while `connect()` blocks, the caller hears CONNECT_TIMEOUT and
      then the socket's verdict, two final states for one connect, and no
      timeout is left armed. */
  lemma TimeoutDuringSocketConnectReportsTwice(s: State, device: Device, mtu: int32, bondCode: int32, connectAnswer: bool)
    requires bondCode != BondNone && s.serviceUuid.Some?
    ensures var c := Step(s, ConnectEvent(device, mtu, bondCode, true, connectAnswer, true));
            && c.out == s.out + [StateOut(Connecting), StateOut(ConnectTimeout),
                                 StateOut(if connectAnswer then Connected else ConnectError)]
            && c.timeout == None
            && Step(c, TimerFires) == c
  {
  }

  /** A write that finishes before the timer: one result, and the timer no
      longer fires for it. */
  lemma WriteFirstAnswersOnce(s: State, data: ByteArray, success: bool)
    requires Valid(s)
    ensures var w := StartSend(s, data);
            var f := Step(w, WriteFinished(s.next, success));
            && f.out == s.out + [SendOut(s.next, success)]
            && Step(f, TimerFires) == f
  {
  }

  /** The timer firing while the write blocks: the callback hears false,
      then the write's own outcome as well. */
  lemma TimerFirstAnswersTwice(s: State, data: ByteArray, success: bool)
    requires Valid(s)
    ensures var w := StartSend(s, data);
            var t := Step(w, TimerFires);
            var f := Step(t, WriteFinished(s.next, success));
            f.out == s.out + [SendOut(s.next, false), SendOut(s.next, success)]
  {
    var w := StartSend(s, data);
    assert w.timeout == Some(WriteTimer(s.next)) && s.next in w.writing;
  }

  /** Without a valid client nothing reaches the socket. */
  lemma InvalidClientDoesNoIo(s: State, data: ByteArray, answers: seq<ReadAnswer>)
    requires !Valid(s)
    ensures StartSend(s, data).native == s.native
    ensures ReceiveData(s, answers) == (s, false)
  {
  }

  /** `disconnect` reports DISCONNECTED once however often it runs. */
  lemma DisconnectIdempotent(s: State)
    ensures Disconnect(Disconnect(s)) == Disconnect(s)
    ensures s.socket.Some? ==> Disconnect(Disconnect(s)).out == s.out + [StateOut(Disconnected)]
  {
  }
}
