/** The helper object's decisions: the MTU range, the adapter-state check,
    the permission check, enabling or disabling the adapter, and how adapter
    state broadcasts turn into on/off notifications.  Everything Android
    answers is a field of `Platform` or a parameter. */
module BluetoothHelper {
  import opened Kotlin
  import opened Client

  /** Android API levels the helper branches on. */
  const VersionM: nat := 23
  const VersionS: nat := 31
  const VersionTiramisu: nat := 33

  /** The default LE ATT_MTU (Bluetooth Core Specification v5.3, Vol 3,
      Part F, section 3.2.8). */
  const MinMtu: int32 := 23
  /** The maximum length of an attribute value (Vol 3, Part F, section 3.2.9). */
  const MaxMtu: int32 := 512

  datatype Permission =
    | BluetoothPermission
    | BluetoothAdmin
    | AccessFineLocation
    | AccessCoarseLocation
    | BluetoothScan
    | BluetoothConnect

  /** The permissions checked, in order: the legacy four below Android 12,
      the two runtime Bluetooth permissions from it on. */
  function RequiredPermissions(sdk: nat): (r: seq<Permission>)
    ensures |r| == (if sdk < VersionS then 4 else 2)
    ensures forall i, j :: 0 <= i < j < |r| ==> r[i] != r[j]
    ensures BluetoothConnect in r <==> sdk >= VersionS
    ensures AccessFineLocation in r <==> sdk < VersionS
  {
    if sdk < VersionS then [BluetoothPermission, BluetoothAdmin, AccessFineLocation, AccessCoarseLocation]
    else [BluetoothScan, BluetoothConnect]
  }

  /** What the platform answers when asked. */
  datatype Platform = Platform(
    sdk: nat,
    adapterPresent: bool,
    adapterEnabled: bool,
    granted: set<Permission>,
    locationEnabled: bool)

  predicate AllGranted(p: Platform)
  {
    forall i :: 0 <= i < |RequiredPermissions(p.sdk)| ==> RequiredPermissions(p.sdk)[i] in p.granted
  }

  // ----- MTU ------------------------------------------------------------------

  datatype MtuCheck = MtuAccepted | IllegalArgument

  /** `checkMtuRange`: throws `IllegalArgumentException` outside 23..512. */
  function CheckMtuRange(mtu: int32): (r: MtuCheck)
    ensures r == MtuAccepted <==> MinMtu <= mtu <= MaxMtu
  {
    if mtu < 23 || mtu > 512 then IllegalArgument else MtuAccepted
  }

  // ----- Permissions ----------------------------------------------------------

  /** Index of the first permission of `perms` from `from` on that is not granted. */
  function FirstMissing(perms: seq<Permission>, granted: set<Permission>, from: nat): (r: Option<nat>)
    requires from <= |perms|
    ensures r.Some? ==> from <= r.value < |perms| && perms[r.value] !in granted
                        && forall i :: from <= i < r.value ==> perms[i] in granted
    ensures r.None? <==> forall i :: from <= i < |perms| ==> perms[i] in granted
    decreases |perms| - from
  {
    if from == |perms| then None
    else if perms[from] !in granted then Some(from)
    else FirstMissing(perms, granted, from + 1)
  }

  /** Outcome of `checkPermissions`: whether every permission is granted, and
      whether a runtime permission request went out. */
  datatype PermissionCheck = PermissionCheck(granted: bool, requested: bool)

  /** `checkPermissions(request)`: walks the list and stops at the first
      permission not granted, requesting permissions at most that once (and
      only from Android 6 on). */
  function CheckPermissions(p: Platform, request: bool): (r: PermissionCheck)
    ensures r.granted <==> AllGranted(p)
    ensures r.requested <==> !AllGranted(p) && request && p.sdk >= VersionM
  {
    var missing := FirstMissing(RequiredPermissions(p.sdk), p.granted, 0);
    if missing.Some? then PermissionCheck(false, request && p.sdk >= VersionM)
    else PermissionCheck(true, false)
  }

  /** `requestPermissions`: only issued from Android 6 on. */
  function RequestPermissions(p: Platform): (issued: bool)
    ensures !AllGranted(p) ==> (issued <==> CheckPermissions(p, true).requested)
    ensures issued <==> CheckPermissions(p.(granted := {}), true).requested
  {
    p.sdk >= VersionM
  }

  // ----- Adapter state --------------------------------------------------------

  datatype StateCheck = StateCheck(state: ClientState, permissionRequested: bool)

  /** `checkState`, in priority order.  The source returns
      `ClientState.UNSUPPORTED` for a missing adapter, a constant the enum
      does not declare (it has `NOT_SUPPORT`), so that line does not compile
      as written; the model reads it as `NOT_SUPPORT`. */
  function CheckState(p: Platform, requestPermission: bool): (r: StateCheck)
    ensures r.state == NotSupport <==> !p.adapterPresent
    ensures r.state == NoPermissions <==> p.adapterPresent && !AllGranted(p)
    ensures r.state == Enable <==> p.adapterPresent && AllGranted(p) && p.adapterEnabled
    ensures r.state == Disable <==> p.adapterPresent && AllGranted(p) && !p.adapterEnabled
    ensures r.state != LocationDisable
    ensures r.permissionRequested <==> r.state == NoPermissions && requestPermission && p.sdk >= VersionM
  {
    if !p.adapterPresent then StateCheck(NotSupport, false)
    else
      var perms := CheckPermissions(p, requestPermission);
      if !perms.granted then StateCheck(NoPermissions, perms.requested)
      else if p.adapterEnabled then StateCheck(Enable, false)
      else StateCheck(Disable, false)
  }

  /** What `switchBluetooth` did: its return value, whether it called the
      adapter's enable/disable, and whether it requested permissions. */
  datatype SwitchOutcome = SwitchOutcome(result: bool, adapterCalled: bool, permissionRequested: bool)

  /** `switchBluetooth(enabled, checkPermission)`; `adapterResult` is what the
      adapter's deprecated `enable()`/`disable()` returns. */
  function SwitchBluetooth(p: Platform, checkPermission: bool, adapterResult: bool): (r: SwitchOutcome)
    ensures checkPermission && !AllGranted(p) ==> !r.result && !r.adapterCalled
    ensures p.sdk >= VersionTiramisu ==> !r.result && !r.adapterCalled
    ensures r.adapterCalled <==> p.sdk < VersionTiramisu && (!checkPermission || AllGranted(p))
    ensures r.adapterCalled ==> r.result == adapterResult
    ensures r.permissionRequested <==> checkPermission && !AllGranted(p) && p.sdk >= VersionM
  {
    if checkPermission && !CheckPermissions(p, true).granted then
      SwitchOutcome(false, false, CheckPermissions(p, true).requested)
    else if p.sdk < VersionTiramisu then SwitchOutcome(adapterResult, true, false)
    else SwitchOutcome(false, false, false)
  }

  /** What `checkBluetoothValid` did. */
  datatype ValidCheck = ValidCheck(valid: bool, permissionRequested: bool, enableRequested: bool, locationPrompted: bool)

  /** `checkBluetoothValid`: usable only when the state is ENABLE and, below
      Android 12, location is on.  A DISABLE state asks the adapter to turn
      on (the answer is ignored) and still reports not valid. */
  function CheckBluetoothValid(p: Platform, adapterResult: bool): (r: ValidCheck)
    ensures r.valid <==> CheckState(p, true).state == Enable && (p.sdk >= VersionS || p.locationEnabled)
    ensures r.enableRequested <==> CheckState(p, true).state == Disable && p.sdk < VersionTiramisu
    ensures r.locationPrompted <==> CheckState(p, true).state == Enable && p.sdk < VersionS && !p.locationEnabled
  {
    var st := CheckState(p, true);
    if st.state != Enable then
      var enableRequested := st.state == Disable && SwitchBluetooth(p, false, adapterResult).adapterCalled;
      ValidCheck(false, st.permissionRequested, enableRequested, false)
    else if p.sdk < VersionS && !p.locationEnabled then ValidCheck(false, st.permissionRequested, false, true)
    else ValidCheck(true, st.permissionRequested, false, false)
  }

  // ----- Switch broadcasts ----------------------------------------------------

  const ActionStateChanged: string := "android.bluetooth.adapter.action.STATE_CHANGED"
  const StateOff: int32 := 10
  const StateTurningOn: int32 := 11
  const StateOn: int32 := 12
  const StateTurningOff: int32 := 13

  /** Which of the two registered lambdas a broadcast invokes. */
  datatype SwitchSignal = TurnedOn | TurningOff | NoSignal

  /** `bluetoothReceiver.onReceive`: the `EXTRA_STATE` extra read with
      default 0. */
  function OnSwitchBroadcast(action: string, extraState: Option<int32>): (r: SwitchSignal)
    ensures r == TurnedOn <==> action == ActionStateChanged && extraState == Some(StateOn)
    ensures r == TurningOff <==> action == ActionStateChanged && extraState == Some(StateTurningOff)
  {
    if action != ActionStateChanged then NoSignal
    else
      var state := match extraState case Some(v) => v case None => 0;
      if state == StateTurningOn then NoSignal
      else if state == StateOn then TurnedOn
      else if state == StateTurningOff then TurningOff
      else NoSignal
  }
}
