/**
 * The connector component as a state machine. A `Snapshot` holds the
 * component's React state, the refs and listeners it keeps, and the values it
 * last reported to its parent through `onLevel` and `onConnectionChange`.
 * Each user action, timer callback, platform callback and prop change is an
 * `Event`, and `Step` gives the state after it. The class `Connector` keeps
 * the same state in fields and has one method per event, each proved to
 * agree with `Step`.
 *
 * Every asynchronous platform call is a parameter: its outcome (a chosen
 * device, a rejection and its message) arrives with the `AttemptSettled`
 * event. The synchronous prologue of `connect` (up to its first `await`) is
 * the `ConnectCalled` event.
 */
module BluetoothConnector {
  import opened Wrappers

  /** What `DataView.getUint8` can return. */
  type Byte = b: int | 0 <= b < 256

  /** First value of the simulation counter. */
  const SimStart := 12
  /** Amount the simulation counter advances per tick. */
  const SimStep := 7
  /** The simulation counter is taken modulo this. */
  const SimModulus := 101
  /** Largest pollen level ever reported. */
  const MaxLevel := 100
  const SimDeviceName := "Simulated Pollen Wristband"
  /** Shown on the component when the chosen device has no name. */
  const FallbackDeviceName := "Pollen Sensor"
  /** Shown when a failed step gave no message. */
  const DefaultError := "Failed to connect to device"

  datatype Snapshot = Snapshot(
    supported: bool,            // Web Bluetooth is available (fixed at mount)
    simulation: bool,           // the `simulation` prop
    simLevel: int,              // the simulation effect's counter `level`
    isConnected: bool,
    deviceName: Option<string>,
    isBusy: bool,
    error: Option<string>,
    hasController: bool,        // `abortRef.current` holds a controller
    handlerAttached: bool,      // a value-changed handler is registered
    linked: bool,               // a connected device carries our disconnect listener
    reportedLevel: Option<int>, // last `onLevel` argument
    reportedConnected: bool,    // last `onConnectionChange` flag
    reportedName: Option<string>) // last `onConnectionChange` name

  /** Outcome of `requestDevice`: rejected (with the error's message, if any) or a device. */
  datatype Picked = Cancelled(message: Option<string>) | Chosen(name: Option<string>)

  /** Outcome of one awaited platform call. */
  datatype Status = Resolved | Rejected(message: Option<string>)

  /**
   * Outcomes of the connect chain: the device picker, then `gatt.connect`,
   * `getPrimaryService`, `getCharacteristic` and `startNotifications`.
   */
  datatype Attempt = Attempt(device: Picked, server: Status, service: Status,
                             characteristic: Status, notifications: Status)

  datatype Event =
    | SimulationToggled(on: bool)
    | TimerFired
    | ConnectCalled
    | AttemptSettled(attempt: Attempt)
    | ValueChanged(value: Option<seq<Byte>>)
    | GattServerDisconnected
    | DisconnectCalled
    | ButtonClicked

  /** What a click on the connect button does. */
  datatype Action = Ignored | RunsDisconnect | RunsConnect

  /** The freshly mounted component: nothing connected, nothing reported. */
  function Initial(supported: bool): Snapshot {
    Snapshot(supported, false, SimStart, false, None, false, None, false, false, false, None, false, None)
  }

  /** Facts every reachable state satisfies. */
  predicate Inv(s: Snapshot) {
    && 0 <= s.simLevel <= MaxLevel
    && (s.reportedLevel.Some? ==> 0 <= s.reportedLevel.value <= MaxLevel)
    && s.reportedConnected == s.isConnected
    && (s.reportedName.Some? ==> s.reportedConnected && s.reportedName == s.deviceName)
    && (s.isConnected ==> s.simulation || s.linked)
    && (s.linked ==> s.handlerAttached)
    && (s.isBusy ==> s.supported && s.hasController)
    && (!s.supported ==> !s.hasController && !s.handlerAttached && s.error == None)
  }

  /** `Math.max(0, Math.min(100, x))`. */
  function Clamp(x: int): (r: int)
    ensures 0 <= r <= MaxLevel
    ensures 0 <= x <= MaxLevel ==> r == x
    ensures x > MaxLevel ==> r == MaxLevel
    ensures x < 0 ==> r == 0
  {
    var upper := if MaxLevel < x then MaxLevel else x;
    if 0 < upper then upper else 0
  }

  /** The simulation effect: set up when the prop turns on, cleaned up when it turns off. */
  function AfterToggle(s: Snapshot, on: bool): (r: Snapshot)
    ensures r.simulation == on
    ensures on == s.simulation ==> r == s
    ensures on && !s.simulation ==>
      && r.simLevel == SimStart && r.isConnected && r.deviceName == Some(SimDeviceName)
      && r.reportedConnected && r.reportedName == Some(SimDeviceName)
      && r.reportedLevel == s.reportedLevel
    ensures !on && s.simulation ==>
      && !r.isConnected && !r.reportedConnected && r.reportedName == None
      && r.reportedLevel == None && r.deviceName == s.deviceName
    ensures r.isBusy == s.isBusy && r.error == s.error && r.hasController == s.hasController
    ensures r.handlerAttached == s.handlerAttached && r.linked == s.linked
    ensures Inv(s) ==> Inv(r)
  {
    if on == s.simulation then s
    else if on then
      s.(simulation := true, simLevel := SimStart, isConnected := true,
         deviceName := Some(SimDeviceName), reportedConnected := true,
         reportedName := Some(SimDeviceName))
    else
      s.(simulation := false, isConnected := false, reportedConnected := false,
         reportedName := None, reportedLevel := None)
  }

  /** One run of the interval callback; without simulation there is no interval. */
  function AfterTick(s: Snapshot): (r: Snapshot)
    ensures !s.simulation ==> r == s
    ensures s.simulation ==>
      && r.simLevel == (s.simLevel + SimStep) % SimModulus
      && r.reportedLevel == Some(r.simLevel)
      && 0 <= r.simLevel <= MaxLevel
      && r == s.(simLevel := r.simLevel, reportedLevel := r.reportedLevel)
    ensures Inv(s) ==> Inv(r)
  {
    if !s.simulation then s
    else
      var level := (s.simLevel + SimStep) % SimModulus;
      s.(simLevel := level, reportedLevel := Some(level))
  }

  /** The synchronous start of `connect`: a no-op without Bluetooth or in simulation. */
  function AfterConnectCall(s: Snapshot): (r: Snapshot)
    ensures !s.supported || s.simulation ==> r == s
    ensures s.supported && !s.simulation ==>
      r == s.(error := None, isBusy := true, hasController := true)
    ensures Inv(s) ==> Inv(r)
  {
    if !s.supported || s.simulation then s
    else s.(error := None, isBusy := true, hasController := true)
  }

  /** The four calls awaited after the device picker, in order. */
  function ChainSteps(a: Attempt): seq<Status> {
    [a.server, a.service, a.characteristic, a.notifications]
  }

  /** The message of the first rejected call; later calls are never made. */
  function FirstRejection(steps: seq<Status>): (r: Option<Option<string>>)
    ensures r.None? <==> forall i :: 0 <= i < |steps| ==> steps[i].Resolved?
    ensures r.Some? ==> exists i :: 0 <= i < |steps| && steps[i] == Rejected(r.value)
                                    && forall j :: 0 <= j < i ==> steps[j].Resolved?
  {
    if steps == [] then None
    else if steps[0].Rejected? then Some(steps[0].message)
    else
      var rest := FirstRejection(steps[1..]);
      assert forall i :: 1 <= i < |steps| ==> steps[i] == steps[1..][i - 1];
      rest
  }

  /** The error the `catch` clause shows for an attempt, or None when every call resolved. */
  function AttemptError(a: Attempt): (r: Option<string>)
    ensures r.None? <==> a.device.Chosen? && forall i :: 0 <= i < 4 ==> ChainSteps(a)[i].Resolved?
    ensures a.device.Cancelled? ==> r == Some(a.device.message.GetOr(DefaultError))
    ensures a.device.Chosen? && r.Some? ==>
      exists i :: 0 <= i < 4 && ChainSteps(a)[i].Rejected?
                  && (forall j :: 0 <= j < i ==> ChainSteps(a)[j].Resolved?)
                  && r.value == ChainSteps(a)[i].message.GetOr(DefaultError)
  {
    match a.device
    case Cancelled(m) => Some(m.GetOr(DefaultError))
    case Chosen(_) =>
      match FirstRejection(ChainSteps(a))
      case None => None
      case Some(m) => Some(m.GetOr(DefaultError))
  }

  /** The rest of `connect` once the platform has answered; nothing is pending when not busy. */
  function AfterSettle(s: Snapshot, a: Attempt): (r: Snapshot)
    ensures !s.isBusy ==> r == s
    ensures s.isBusy ==> !r.isBusy && r.simulation == s.simulation && r.simLevel == s.simLevel
    ensures s.isBusy && a.device.Chosen? ==> r.deviceName == Some(a.device.name.GetOr(FallbackDeviceName))
    ensures s.isBusy && a.device.Cancelled? ==> r.deviceName == s.deviceName
    ensures s.isBusy && AttemptError(a).Some? ==>
      && r.error == AttemptError(a) && !r.isConnected && !r.reportedConnected
      && r.reportedLevel == None && r.reportedName == None
      && r.handlerAttached == s.handlerAttached && r.linked == s.linked
    ensures s.isBusy && AttemptError(a).None? ==>
      && r.isConnected && r.reportedConnected && r.reportedName == a.device.name
      && r.handlerAttached && r.linked && r.error == s.error && r.reportedLevel == s.reportedLevel
    ensures Inv(s) ==> Inv(r)
  {
    if !s.isBusy then s
    else
      var named := if a.device.Chosen? then s.(deviceName := Some(a.device.name.GetOr(FallbackDeviceName))) else s;
      match AttemptError(a)
      case Some(message) =>
        named.(error := Some(message), isConnected := false, reportedConnected := false,
               reportedName := None, reportedLevel := None, isBusy := false)
      case None =>
        named.(handlerAttached := true, isConnected := true, reportedConnected := true,
               reportedName := a.device.name, linked := true, isBusy := false)
  }

  /**
   * `handleValue`: with a handler registered, the first byte is reported
   * clamped; an event without a value, or an empty one (where `getUint8`
   * throws), reports nothing.
   */
  function AfterValue(s: Snapshot, value: Option<seq<Byte>>): (r: Snapshot)
    ensures !s.handlerAttached || value.None? || value == Some([]) ==> r == s
    ensures s.handlerAttached && value.Some? && |value.value| > 0 ==>
      r == s.(reportedLevel := Some(Clamp(value.value[0])))
    ensures s.handlerAttached && value.Some? && |value.value| > 0 && value.value[0] <= MaxLevel ==>
      r.reportedLevel == Some(value.value[0])
    ensures Inv(s) ==> Inv(r)
  {
    if !s.handlerAttached then s
    else match value
      case None => s
      case Some(bytes) =>
        if |bytes| == 0 then s
        else s.(reportedLevel := Some(Clamp(bytes[0])))
  }

  /** The `gattserverdisconnected` listener; it exists only while a device is linked. */
  function AfterGattDisconnect(s: Snapshot): (r: Snapshot)
    ensures !s.linked ==> r == s
    ensures s.linked ==>
      r == s.(handlerAttached := false, linked := false, isConnected := false,
              reportedConnected := false, reportedName := None, reportedLevel := None)
    ensures s.linked ==> !r.reportedConnected && r.reportedLevel == None && r.error == s.error
    ensures Inv(s) ==> Inv(r)
  {
    if !s.linked then s
    else
      s.(handlerAttached := false, linked := false, isConnected := false,
         reportedConnected := false, reportedName := None, reportedLevel := None)
  }

  /**
   * `disconnect`: the abort has no effect on the platform, so the link and
   * the value handler stay as they are.
   */
  function AfterDisconnect(s: Snapshot): (r: Snapshot)
    ensures !r.isConnected && !r.reportedConnected && r.reportedLevel == None && r.reportedName == None
    ensures r == s.(isConnected := false, reportedConnected := false, reportedName := None, reportedLevel := None)
    ensures Inv(s) ==> Inv(r)
  {
    s.(reportedLevel := None, isConnected := false, reportedConnected := false, reportedName := None)
  }

  /** The button: static and disabled in simulation, otherwise disabled without Bluetooth or while busy. */
  function ButtonAction(s: Snapshot): (r: Action)
    ensures r == Ignored <==> s.simulation || !s.supported || s.isBusy
    ensures r == RunsDisconnect <==> !s.simulation && s.supported && !s.isBusy && s.isConnected
    ensures r == RunsConnect <==> !s.simulation && s.supported && !s.isBusy && !s.isConnected
  {
    if s.simulation || !s.supported || s.isBusy then Ignored
    else if s.isConnected then RunsDisconnect
    else RunsConnect
  }

  /** The state after one event. */
  function Step(s: Snapshot, e: Event): (r: Snapshot)
    ensures Inv(s) ==> Inv(r)
    ensures r.supported == s.supported
  {
    match e
    case SimulationToggled(on) => AfterToggle(s, on)
    case TimerFired => AfterTick(s)
    case ConnectCalled => AfterConnectCall(s)
    case AttemptSettled(a) => AfterSettle(s, a)
    case ValueChanged(v) => AfterValue(s, v)
    case GattServerDisconnected => AfterGattDisconnect(s)
    case DisconnectCalled => AfterDisconnect(s)
    case ButtonClicked =>
      match ButtonAction(s)
      case Ignored => s
      case RunsDisconnect => AfterDisconnect(s)
      case RunsConnect => AfterConnectCall(s)
  }

  /** The connect chain unrolled: the first rejected call of the four decides. */
  lemma ChainRejection(a: Attempt)
    ensures FirstRejection(ChainSteps(a)) ==
      if a.server.Rejected? then Some(a.server.message)
      else if a.service.Rejected? then Some(a.service.message)
      else if a.characteristic.Rejected? then Some(a.characteristic.message)
      else if a.notifications.Rejected? then Some(a.notifications.message)
      else None
  {
    var s0 := ChainSteps(a);
    var s1 := [a.service, a.characteristic, a.notifications];
    var s2 := [a.characteristic, a.notifications];
    var s3 := [a.notifications];
    assert s0[1..] == s1 && s1[1..] == s2 && s2[1..] == s3 && s3[1..] == [];
    assert FirstRejection(s3) == if a.notifications.Rejected? then Some(a.notifications.message) else None;
    assert FirstRejection(s2) == if a.characteristic.Rejected? then Some(a.characteristic.message) else FirstRejection(s3);
    assert FirstRejection(s1) == if a.service.Rejected? then Some(a.service.message) else FirstRejection(s2);
  }

  /** The component, its refs and listeners, and what it has reported to its parent. */
  class Connector {
    const supported: bool
    var simulation: bool
    var simLevel: int
    var isConnected: bool
    var deviceName: Option<string>
    var isBusy: bool
    var error: Option<string>
    var hasController: bool
    var handlerAttached: bool
    var linked: bool
    var reportedLevel: Option<int>
    var reportedConnected: bool
    var reportedName: Option<string>

    function State(): Snapshot
      reads this
    {
      Snapshot(supported, simulation, simLevel, isConnected, deviceName, isBusy, error,
               hasController, handlerAttached, linked, reportedLevel, reportedConnected, reportedName)
    }

    ghost predicate Valid()
      reads this
    {
      Inv(State())
    }

    constructor (supported: bool)
      ensures Valid() && State() == Initial(supported)
    {
      this.supported := supported;
      simulation, simLevel := false, SimStart;
      isConnected, deviceName, isBusy, error := false, None, false, None;
      hasController, handlerAttached, linked := false, false, false;
      reportedLevel, reportedConnected, reportedName := None, false, None;
    }

    /** The simulation effect, run when the `simulation` prop changes. */
    method SetSimulation(on: bool)
      requires Valid()
      modifies this
      ensures Valid() && State() == Step(old(State()), SimulationToggled(on))
    {
      if on == simulation {
        return;
      }
      if on {
        simulation := true;
        simLevel := SimStart;
        isConnected := true;
        deviceName := Some(SimDeviceName);
        reportedConnected, reportedName := true, Some(SimDeviceName);
      } else {
        simulation := false;
        isConnected := false;
        reportedConnected, reportedName := false, None;
        reportedLevel := None;
      }
    }

    /** The interval callback of the simulation. */
    method Tick()
      requires Valid()
      modifies this
      ensures Valid() && State() == Step(old(State()), TimerFired)
    {
      if !simulation {
        return;
      }
      simLevel := (simLevel + SimStep) % SimModulus;
      reportedLevel := Some(simLevel);
    }

    /** `connect` up to its first `await`. */
    method Connect()
      requires Valid()
      modifies this
      ensures Valid() && State() == Step(old(State()), ConnectCalled)
    {
      if !supported || simulation {
        return;
      }
      error := None;
      isBusy := true;
      hasController := true;
    }

    /** `connect` after its awaits: the chain with the given outcomes, its `catch` and its `finally`. */
    method Settle(a: Attempt)
      requires Valid()
      modifies this
      ensures Valid() && State() == Step(old(State()), AttemptSettled(a))
    {
      if !isBusy {
        return;
      }
      ChainRejection(a);
      var failure: Option<Option<string>> := None;
      match a.device {
        case Cancelled(m) =>
          failure := Some(m);
        case Chosen(name) =>
          deviceName := Some(name.GetOr(FallbackDeviceName));
          if a.server.Rejected? {
            failure := Some(a.server.message);
          } else if a.service.Rejected? {
            failure := Some(a.service.message);
          } else if a.characteristic.Rejected? {
            failure := Some(a.characteristic.message);
          } else if a.notifications.Rejected? {
            failure := Some(a.notifications.message);
          } else {
            handlerAttached := true;
            isConnected := true;
            reportedConnected, reportedName := true, name;
            linked := true;
          }
      }
      if failure.Some? {
        error := Some(failure.value.GetOr(DefaultError));
        isConnected := false;
        reportedConnected, reportedName := false, None;
        reportedLevel := None;
      }
      isBusy := false;
    }

    /** `handleValue`, run for each value-changed notification. */
    method HandleValue(value: Option<seq<Byte>>)
      requires Valid()
      modifies this
      ensures Valid() && State() == Step(old(State()), ValueChanged(value))
    {
      if !handlerAttached || value.None? || |value.value| == 0 {
        return;
      }
      var level := value.value[0];
      reportedLevel := Some(Clamp(level));
    }

    /** The `gattserverdisconnected` listener. */
    method OnGattServerDisconnected()
      requires Valid()
      modifies this
      ensures Valid() && State() == Step(old(State()), GattServerDisconnected)
    {
      if !linked {
        return;
      }
      handlerAttached, linked := false, false;
      isConnected := false;
      reportedConnected, reportedName := false, None;
      reportedLevel := None;
    }

    /** `disconnect`. */
    method Disconnect()
      requires Valid()
      modifies this
      ensures Valid() && State() == Step(old(State()), DisconnectCalled)
    {
      reportedLevel := None;
      isConnected := false;
      reportedConnected, reportedName := false, None;
    }

    /** A click on the button: `disconnect` when connected, `connect` otherwise, unless disabled. */
    method Click()
      requires Valid()
      modifies this
      ensures Valid() && State() == Step(old(State()), ButtonClicked)
    {
      if simulation || !supported || isBusy {
        return;
      }
      if isConnected {
        Disconnect();
      } else {
        Connect();
      }
    }
  }
}
