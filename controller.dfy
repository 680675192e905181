/** The desktop controller's core: the manual-control state (active flag, held keys, thrust),
    the 100 Hz control tick, and the intent handlers that go through the drone connection.
    Widgets, dialogs and the Tk event loop are outside the model: a dialog answer is a boolean
    argument, a key event is its key name, and each timer callback is an explicit call. */
module Controller {
  import opened Common
  import opened Connection

  const BASE_THRUST: int := 32000   // approximate hover thrust
  const THRUST_STEP: int := 2000    // change per tick while up or down is held
  const THRUST_CEILING: int := 60000
  const THRUST_FLOOR: int := 10001
  const MAX_ANGLE: real := 15.0     // roll and pitch, degrees
  const MAX_YAWRATE: real := 100.0  // degrees per second
  const ALTITUDE_MIN_MM: int := 100
  const ALTITUDE_MAX_MM: int := 3000

  /** A handle returned by the Tk scheduler. */
  type TimerId = nat

  function Min(a: int, b: int): int { if a <= b then a else b }
  function Max(a: int, b: int): int { if a >= b then a else b }

  function LowerChar(c: char): char
  {
    if 'A' <= c <= 'Z' then (c as int + ('a' as int - 'A' as int)) as char else c
  }

  /** `str.lower` on the ASCII key names Tk reports. */
  function Lower(s: string): (r: string)
    ensures |r| == |s|
    ensures forall i :: 0 <= i < |s| ==> r[i] == LowerChar(s[i]) && !('A' <= r[i] <= 'Z')
  {
    if s == [] then [] else [LowerChar(s[0])] + Lower(s[1..])
  }

  /** A press followed by a release of a key name with the same lower-case form (Tk reports
      `D` on press and `d` on release when shift is let go first) gives back the keys held
      before, when that key was not already held. */
  lemma PressThenReleaseRestores(keys: set<string>, pressed: string, released: string)
    requires Lower(released) == Lower(pressed) && Lower(pressed) !in keys
    ensures (keys + {Lower(pressed)}) - {Lower(released)} == keys
  {
  }

  /** The case above for `D` pressed and `d` released. */
  lemma ShiftReleasedFirstRestores(keys: set<string>)
    requires "d" !in keys
    ensures (keys + {Lower("D")}) - {Lower("d")} == keys
  {
    assert Lower("D") == "d" && Lower("d") == "d";
    PressThenReleaseRestores(keys, "D", "d");
  }

  /** One axis of the tick: the first key's test sets the value, then the second key's test
      overwrites it, so when both are held the second key wins. */
  function LastHeld(keys: set<string>, firstKey: string, firstValue: real, secondKey: string, secondValue: real)
    : (v: real)
    ensures secondKey in keys ==> v == secondValue
    ensures firstKey in keys && secondKey !in keys ==> v == firstValue
    ensures firstKey !in keys && secondKey !in keys ==> v == 0.0
  {
    var afterFirst := if firstKey in keys then firstValue else 0.0;
    if secondKey in keys then secondValue else afterFirst
  }

  /** The thrust after one tick: up first, then down, then the reset key. */
  function ThrustAfterTick(keys: set<string>, thrust: int): (t: int)
    ensures "space" in keys ==> t == BASE_THRUST
    ensures THRUST_FLOOR <= thrust <= THRUST_CEILING ==> THRUST_FLOOR <= t <= THRUST_CEILING
    ensures "up" !in keys && "down" !in keys && "space" !in keys ==> t == thrust
    ensures "up" in keys && "down" !in keys && "space" !in keys && thrust <= THRUST_CEILING ==>
      t == Min(THRUST_CEILING, thrust + THRUST_STEP) && t >= thrust
    ensures "down" in keys && "up" !in keys && "space" !in keys && thrust >= THRUST_FLOOR ==>
      t == Max(THRUST_FLOOR, thrust - THRUST_STEP) && t <= thrust
    // both held: up is applied first, so they cancel except at the ceiling, where the saturated
    // up is followed by a full step down
    ensures "up" in keys && "down" in keys && "space" !in keys && THRUST_FLOOR <= thrust <= THRUST_CEILING ==>
      t == Min(thrust, THRUST_CEILING - THRUST_STEP)
  {
    var afterUp := if "up" in keys then Min(THRUST_CEILING, thrust + THRUST_STEP) else thrust;
    var afterDown := if "down" in keys then Max(THRUST_FLOOR, afterUp - THRUST_STEP) else afterUp;
    if "space" in keys then BASE_THRUST else afterDown
  }

  /** The setpoint one tick passes to `send_manual_control`. While manual control is active the
      thrust is in range, so the setpoint is already inside the connection's clamp. */
  function TickSetpoint(keys: set<string>, thrust: int): (sp: Setpoint)
    ensures "space" in keys ==> sp == Setpoint(0.0, 0.0, 0.0, BASE_THRUST)
    ensures sp.thrust == ThrustAfterTick(keys, thrust)
    ensures sp.roll in {-MAX_ANGLE, 0.0, MAX_ANGLE} && sp.pitch in {-MAX_ANGLE, 0.0, MAX_ANGLE}
    ensures sp.yawrate in {-MAX_YAWRATE, 0.0, MAX_YAWRATE}
    ensures THRUST_FLOOR <= thrust <= THRUST_CEILING ==> SetpointInRange(sp) && ClampSetpoint(sp) == sp
  {
    var reset := "space" in keys;
    Setpoint(
      if reset then 0.0 else LastHeld(keys, "a", -MAX_ANGLE, "d", MAX_ANGLE),
      if reset then 0.0 else LastHeld(keys, "w", MAX_ANGLE, "s", -MAX_ANGLE),
      if reset then 0.0 else LastHeld(keys, "left", -MAX_YAWRATE, "right", MAX_YAWRATE),
      ThrustAfterTick(keys, thrust))
  }

  /** Opposing keys held together: roll goes right (d after a), pitch goes back (s after w),
      yaw goes clockwise (right after left). */
  lemma OpposingKeysLastWriterWins(keys: set<string>, thrust: int)
    requires {"a", "d", "w", "s", "left", "right"} <= keys && "space" !in keys
    ensures TickSetpoint(keys, thrust).roll == MAX_ANGLE
    ensures TickSetpoint(keys, thrust).pitch == -MAX_ANGLE
    ensures TickSetpoint(keys, thrust).yawrate == MAX_YAWRATE
  {
  }

  /** `DroneControllerApp` without its widgets. */
  class DroneControllerApp {
    const drone: DroneConnection
    var manualControlActive: bool
    var pressedKeys: set<string>
    var controlTimer: Option<TimerId>
    var currentThrust: int
    /** How many callbacks `root.after` has scheduled; the next handle is this number. */
    var timersScheduled: nat
    /** Handles passed to `root.after_cancel`, oldest first. */
    var cancelledTimers: seq<TimerId>

    /** While manual control is active the thrust stays in [10001, 60000]; while it is not, no
        key is held and no tick is pending. */
    ghost predicate Valid()
      reads this, drone
    {
      && drone.Valid()
      && (manualControlActive ==> THRUST_FLOOR <= currentThrust <= THRUST_CEILING)
      && (!manualControlActive ==> pressedKeys == {} && controlTimer.None?)
      && (controlTimer.Some? ==> controlTimer.value < timersScheduled)
    }

    /** `__init__`, lines that set the manual-control state. */
    constructor ()
      ensures Valid() && fresh(drone)
      ensures !manualControlActive && pressedKeys == {} && controlTimer.None? && currentThrust == 0
      ensures drone.trace == [] && !drone.IsConnected()
    {
      drone := new DroneConnection();
      manualControlActive := false;
      pressedKeys := {};
      controlTimer := None;
      currentThrust := 0;
      timersScheduled := 0;
      cancelledTimers := [];
    }

    /** `on_key_press`: only while manual control is active. */
    method OnKeyPress(keysym: string)
      requires Valid()
      modifies this`pressedKeys
      ensures Valid()
      ensures pressedKeys == if manualControlActive then old(pressedKeys) + {Lower(keysym)} else old(pressedKeys)
    {
      if !manualControlActive {
        return;
      }
      var key := Lower(keysym);
      pressedKeys := pressedKeys + {key};
    }

    /** `on_key_release`: only while manual control is active; releasing a key that is not held
        leaves the set as it was. */
    method OnKeyRelease(keysym: string)
      requires Valid()
      modifies this`pressedKeys
      ensures Valid()
      ensures pressedKeys == if manualControlActive then old(pressedKeys) - {Lower(keysym)} else old(pressedKeys)
      ensures Lower(keysym) !in old(pressedKeys) ==> pressedKeys == old(pressedKeys)
    {
      if !manualControlActive {
        return;
      }
      var key := Lower(keysym);
      pressedKeys := pressedKeys - {key};
    }

    /** `send_control_loop`: one 100 Hz tick. When inactive it does nothing and schedules nothing;
        otherwise it sends one setpoint derived from the held keys and schedules the next tick. */
    method SendControlLoop()
      requires Valid()
      modifies this`currentThrust, this`controlTimer, this`timersScheduled, drone`trace
      ensures Valid()
      ensures !manualControlActive ==>
        currentThrust == old(currentThrust) && controlTimer == old(controlTimer)
        && timersScheduled == old(timersScheduled) && drone.trace == old(drone.trace)
      ensures manualControlActive ==>
        && currentThrust == ThrustAfterTick(pressedKeys, old(currentThrust))
        && drone.trace == old(drone.trace) +
             (if drone.IsConnected() then [SetpointSent(TickSetpoint(pressedKeys, old(currentThrust)))] else [])
        && controlTimer == Some(old(timersScheduled)) && timersScheduled == old(timersScheduled) + 1
    {
      if !manualControlActive {
        return;
      }
      var keys := pressedKeys;
      var roll, pitch, yawrate := 0.0, 0.0, 0.0;
      if "a" in keys {
        roll := -MAX_ANGLE;
      }
      if "d" in keys {
        roll := MAX_ANGLE;
      }
      assert roll == LastHeld(keys, "a", -MAX_ANGLE, "d", MAX_ANGLE);
      if "w" in keys {
        pitch := MAX_ANGLE;
      }
      if "s" in keys {
        pitch := -MAX_ANGLE;
      }
      assert pitch == LastHeld(keys, "w", MAX_ANGLE, "s", -MAX_ANGLE);
      if "left" in keys {
        yawrate := -MAX_YAWRATE;
      }
      if "right" in keys {
        yawrate := MAX_YAWRATE;
      }
      assert yawrate == LastHeld(keys, "left", -MAX_YAWRATE, "right", MAX_YAWRATE);
      var thrust := currentThrust;
      if "up" in keys {
        thrust := Min(THRUST_CEILING, thrust + THRUST_STEP);
      }
      if "down" in keys {
        thrust := Max(THRUST_FLOOR, thrust - THRUST_STEP);
      }
      if "space" in keys {
        roll, pitch, yawrate := 0.0, 0.0, 0.0;
        thrust := BASE_THRUST;
      }
      assert thrust == ThrustAfterTick(keys, old(currentThrust));
      currentThrust := thrust;
      assert Setpoint(roll, pitch, yawrate, currentThrust) == TickSetpoint(keys, old(currentThrust));
      drone.SendManualControl(roll, pitch, yawrate, currentThrust);
      controlTimer := Some(timersScheduled);
      timersScheduled := timersScheduled + 1;
    }

    /** `start_manual_control`, given the answer of its confirmation dialog: override ON first,
        then the state is reset and the first tick runs at once. */
    method StartManualControl(confirmed: bool)
      requires Valid()
      modifies this`manualControlActive, this`pressedKeys, this`currentThrust, this`controlTimer,
        this`timersScheduled, drone`trace
      ensures Valid()
      ensures !confirmed ==> unchanged(this) && unchanged(drone)
      ensures confirmed ==>
        && manualControlActive && pressedKeys == {} && currentThrust == BASE_THRUST
        && controlTimer == Some(old(timersScheduled)) && timersScheduled == old(timersScheduled) + 1
        && drone.trace == old(drone.trace) +
             (if drone.IsConnected()
              then [PacketSent(AUTONAV_CRTP_PORT, AUTONAV_CRTP_CHANNEL, OverridePacket(true)),
                    SetpointSent(Setpoint(0.0, 0.0, 0.0, BASE_THRUST))]
              else [])
    {
      if !confirmed {
        return;
      }
      drone.SendManualOverride(true);
      manualControlActive := true;
      currentThrust := BASE_THRUST;
      pressedKeys := {};
      SendControlLoop();
    }

    /** `stop_manual_control`: nothing when inactive; otherwise the state is cleared, the pending
        tick is cancelled, and the stop setpoint is sent strictly before override OFF. */
    method StopManualControl()
      requires Valid()
      modifies this`manualControlActive, this`pressedKeys, this`controlTimer, this`cancelledTimers, drone`trace
      ensures Valid()
      ensures !old(manualControlActive) ==> unchanged(this) && unchanged(drone)
      ensures old(manualControlActive) ==>
        && !manualControlActive && pressedKeys == {} && controlTimer.None?
        && cancelledTimers == old(cancelledTimers) + (if old(controlTimer).Some? then [old(controlTimer).value] else [])
        && drone.trace == old(drone.trace) +
             (if drone.IsConnected()
              then [StopSetpointSent, PacketSent(AUTONAV_CRTP_PORT, AUTONAV_CRTP_CHANNEL, OverridePacket(false))]
              else [])
    {
      if !manualControlActive {
        return;
      }
      manualControlActive := false;
      pressedKeys := {};
      if controlTimer.Some? {
        cancelledTimers := cancelledTimers + [controlTimer.value];
        controlTimer := None;
      }
      drone.SendStopSetpoint();
      drone.SendManualOverride(false);
    }

    /** `toggle_manual_control`: only when connected. */
    method ToggleManualControl(confirmed: bool)
      requires Valid()
      modifies this`manualControlActive, this`pressedKeys, this`currentThrust, this`controlTimer,
        this`timersScheduled, this`cancelledTimers, drone`trace
      ensures Valid()
      ensures !drone.IsConnected() ==> unchanged(this) && unchanged(drone)
      ensures drone.IsConnected() && old(manualControlActive) ==>
        && !manualControlActive && pressedKeys == {} && controlTimer.None?
        && cancelledTimers == old(cancelledTimers) + (if old(controlTimer).Some? then [old(controlTimer).value] else [])
        && currentThrust == old(currentThrust) && timersScheduled == old(timersScheduled)
        && drone.trace == old(drone.trace) +
             [StopSetpointSent, PacketSent(AUTONAV_CRTP_PORT, AUTONAV_CRTP_CHANNEL, OverridePacket(false))]
      ensures drone.IsConnected() && !old(manualControlActive) && !confirmed ==> unchanged(this) && unchanged(drone)
      ensures drone.IsConnected() && !old(manualControlActive) && confirmed ==>
        && manualControlActive && pressedKeys == {} && currentThrust == BASE_THRUST
        && controlTimer == Some(old(timersScheduled)) && timersScheduled == old(timersScheduled) + 1
        && cancelledTimers == old(cancelledTimers)
        && drone.trace == old(drone.trace) +
             [PacketSent(AUTONAV_CRTP_PORT, AUTONAV_CRTP_CHANNEL, OverridePacket(true)),
              SetpointSent(Setpoint(0.0, 0.0, 0.0, BASE_THRUST))]
    {
      if !drone.IsConnected() {
        return;
      }
      if manualControlActive {
        StopManualControl();
      } else {
        StartManualControl(confirmed);
      }
    }

    /** `enable_controls`, without the widgets: disabling while manual control is active stops it. */
    method EnableControls(enabled: bool)
      requires Valid()
      modifies this`manualControlActive, this`pressedKeys, this`controlTimer, this`cancelledTimers, drone`trace
      ensures Valid()
      ensures enabled || !old(manualControlActive) ==> unchanged(this) && unchanged(drone)
      ensures !enabled ==> !manualControlActive
      ensures !enabled && old(manualControlActive) ==>
        && pressedKeys == {} && controlTimer.None?
        && cancelledTimers == old(cancelledTimers) + (if old(controlTimer).Some? then [old(controlTimer).value] else [])
        && drone.trace == old(drone.trace) +
          (if drone.IsConnected()
           then [StopSetpointSent, PacketSent(AUTONAV_CRTP_PORT, AUTONAV_CRTP_CHANNEL, OverridePacket(false))]
           else [])
    {
      if !enabled && manualControlActive {
        StopManualControl();
      }
    }

    /** `connect`, without the dialogs: an empty address or an unparsable port (`portEntry` is
        `None`) stops before the connection is touched. */
    method Connect(ip: string, portEntry: Option<int>, linkOpens: bool, tocInitially: bool, tocPolls: seq<bool>)
      requires Valid()
      modifies this`manualControlActive, this`pressedKeys, this`controlTimer, this`cancelledTimers, drone
      ensures Valid() && unchanged(this)
      ensures ip == "" || portEntry.None? ==> unchanged(drone)
      ensures ip != "" && portEntry.Some? ==>
        (drone.IsConnected() <==> linkOpens && TocArrives(tocInitially, tocPolls))
        && drone.uri == Some(Udp(ip, portEntry.value))
        && (drone.IsConnected() ==> drone.scf == Some(Link(Udp(ip, portEntry.value))))
        && (!drone.IsConnected() ==> !drone.connected && drone.scf.None? && drone.cf.None?)
        && drone.trace == old(drone.trace)
             + (if linkOpens then [LinkOpened(Udp(ip, portEntry.value))] else [])
             + (if drone.IsConnected() then [] else [LinkClosed(Udp(ip, portEntry.value))])
    {
      if ip == "" {
        return;
      }
      if portEntry.None? {
        return;
      }
      var success := drone.Connect(ip, portEntry.value, linkOpens, tocInitially, tocPolls);
      if success {
        EnableControls(true);
      }
    }

    /** `disconnect` as written: the link is closed first and manual control is stopped after,
        when the connection no longer lets anything through, so neither the stop setpoint nor
        override OFF reaches the drone. */
    method Disconnect()
      requires Valid()
      modifies this`manualControlActive, this`pressedKeys, this`controlTimer, this`cancelledTimers, drone
      ensures Valid() && !manualControlActive && !drone.IsConnected()
      ensures !drone.connected && drone.scf.None? && drone.cf.None? && drone.uri == old(drone.uri)
      ensures cancelledTimers == old(cancelledTimers) + (if old(manualControlActive) && old(controlTimer).Some? then [old(controlTimer).value] else [])
      ensures drone.trace == old(drone.trace) +
        (if old(drone.scf).Some? then [LinkClosed(old(drone.scf).value.uri)] else [])
      ensures forall e :: e in drone.trace[|old(drone.trace)|..] ==> !IsTransmission(e)
    {
      drone.Disconnect();
      EnableControls(false);
    }

    /** `disconnect` with manual control stopped before the link is closed: when connected and
        in manual mode, the stop setpoint and override OFF go out, then the link closes. */
    method DisconnectStoppingManualFirst()
      requires Valid()
      modifies this`manualControlActive, this`pressedKeys, this`controlTimer, this`cancelledTimers, drone
      ensures Valid() && !manualControlActive && !drone.IsConnected()
      ensures !drone.connected && drone.scf.None? && drone.cf.None? && drone.uri == old(drone.uri)
      ensures cancelledTimers == old(cancelledTimers) + (if old(manualControlActive) && old(controlTimer).Some? then [old(controlTimer).value] else [])
      ensures drone.trace == old(drone.trace)
        + (if old(manualControlActive) && old(drone.IsConnected())
           then [StopSetpointSent, PacketSent(AUTONAV_CRTP_PORT, AUTONAV_CRTP_CHANNEL, OverridePacket(false))]
           else [])
        + (if old(drone.scf).Some? then [LinkClosed(old(drone.scf).value.uri)] else [])
    {
      EnableControls(false);
      drone.Disconnect();
    }

    /** `send_shape`, given the dialog answer: it checks the connection but not manual mode
        (the shape buttons are merely disabled while manual control is active). */
    method SendShape(shapeId: int, confirmed: bool)
      requires Valid()
      modifies drone`trace
      ensures Valid()
      ensures drone.trace == old(drone.trace) +
        if drone.IsConnected() && confirmed && ShapePacket(shapeId).Some?
        then [PacketSent(AUTONAV_CRTP_PORT, AUTONAV_CRTP_CHANNEL, ShapePacket(shapeId).value)]
        else []
    {
      if !drone.IsConnected() {
        return;
      }
      if confirmed {
        drone.SendShape(shapeId);
      }
    }

    /** `emergency_stop` */
    method EmergencyStop()
      requires Valid()
      modifies drone`trace
      ensures Valid()
      ensures drone.trace == old(drone.trace) +
        if drone.IsConnected() then [PacketSent(AUTONAV_CRTP_PORT, AUTONAV_CRTP_CHANNEL, [STOP])] else []
    {
      if !drone.IsConnected() {
        return;
      }
      drone.SendStop();
    }

    /** `set_altitude`: `entry` is the parsed altitude field (`None` when it is not an integer).
        Only altitudes in [100, 3000] mm are sent, and only when connected. */
    method SetAltitude(entry: Option<int>)
      requires Valid()
      modifies drone`trace
      ensures Valid()
      ensures drone.trace == old(drone.trace) +
        if drone.IsConnected() && entry.Some? && ALTITUDE_MIN_MM <= entry.value <= ALTITUDE_MAX_MM
        then [PacketSent(AUTONAV_CRTP_PORT, AUTONAV_CRTP_CHANNEL, AltitudePacket(entry.value).value)]
        else []
    {
      if !drone.IsConnected() {
        return;
      }
      if entry.None? {
        return;
      }
      var altitudeMm := entry.value;
      if altitudeMm < ALTITUDE_MIN_MM || altitudeMm > ALTITUDE_MAX_MM {
        return;
      }
      var raised := drone.SendAltitude(altitudeMm);
    }
  }

  /** Connect, take manual control, hold D and Up for one tick, give control back. */
  method ManualSessionScenario() returns (trace: seq<Event>)
    ensures trace == [
      LinkOpened(Udp("192.168.4.1", 2390)),
      PacketSent(0x0D, 0, [10]),
      SetpointSent(Setpoint(0.0, 0.0, 0.0, 32000)),
      SetpointSent(Setpoint(15.0, 0.0, 0.0, 34000)),
      StopSetpointSent,
      PacketSent(0x0D, 0, [11])]
  {
    var app := new DroneControllerApp();
    var u := Udp("192.168.4.1", 2390);
    app.Connect("192.168.4.1", Some(2390), true, true, []);
    assert TocArrives(true, []);
    assert app.drone.IsConnected() && app.drone.trace == [LinkOpened(u)];
    assert OverridePacket(true) == [10] && OverridePacket(false) == [11];
    app.StartManualControl(true);
    assert app.drone.trace == [LinkOpened(u), PacketSent(0x0D, 0, [10]), SetpointSent(Setpoint(0.0, 0.0, 0.0, 32000))];
    app.OnKeyPress("D");
    app.OnKeyPress("Up");
    assert Lower("D") == "d" && Lower("Up") == "up";
    assert app.pressedKeys == {"d", "up"};
    app.SendControlLoop();
    assert app.drone.trace[3] == SetpointSent(Setpoint(15.0, 0.0, 0.0, 34000));
    app.StopManualControl();
    trace := app.drone.trace;
  }

  /** Disconnecting through the UI while manual control is active: the link closes and no stop
      setpoint is ever sent. */
  method DisconnectDuringManualControl() returns (trace: seq<Event>)
    ensures StopSetpointSent !in trace
    ensures trace == [
      LinkOpened(Udp("192.168.4.1", 2390)),
      PacketSent(0x0D, 0, [10]),
      SetpointSent(Setpoint(0.0, 0.0, 0.0, 32000)),
      LinkClosed(Udp("192.168.4.1", 2390))]
  {
    var app := new DroneControllerApp();
    app.Connect("192.168.4.1", Some(2390), true, true, []);
    assert TocArrives(true, []);
    assert OverridePacket(true) == [10] && OverridePacket(false) == [11];
    app.StartManualControl(true);
    app.Disconnect();
    trace := app.drone.trace;
  }

  /** The same session with manual control stopped before the link closes. */
  method DisconnectStoppingManualFirstDuringManualControl() returns (trace: seq<Event>)
    ensures trace == [
      LinkOpened(Udp("192.168.4.1", 2390)),
      PacketSent(0x0D, 0, [10]),
      SetpointSent(Setpoint(0.0, 0.0, 0.0, 32000)),
      StopSetpointSent,
      PacketSent(0x0D, 0, [11]),
      LinkClosed(Udp("192.168.4.1", 2390))]
  {
    var app := new DroneControllerApp();
    app.Connect("192.168.4.1", Some(2390), true, true, []);
    assert TocArrives(true, []);
    assert OverridePacket(true) == [10] && OverridePacket(false) == [11];
    app.StartManualControl(true);
    app.DisconnectStoppingManualFirst();
    trace := app.drone.trace;
  }
}
