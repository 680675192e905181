/** The ground station's link to the drone: the AutoNav packet codec, the setpoint clamp, and the
    connection state that gates every send. The radio library is modelled as a recorder of what it
    was asked to do. */
module Connection {
  import opened Common

  const AUTONAV_CRTP_PORT: byte := 0x0D
  const AUTONAV_CRTP_CHANNEL: byte := 0

  // AutoNav command codes
  const STOP: byte := 0
  const SQUARE: byte := 1
  const RECT: byte := 2
  const OVAL: byte := 3
  const TRI: byte := 4
  const PENTAGON: byte := 5
  const SET_ALT_MM: byte := 5
  const OVERRIDE_ON: byte := 10
  const OVERRIDE_OFF: byte := 11

  /** `udp://host:port` */
  datatype Uri = Udp(host: string, port: int)

  /** A `SyncCrazyflie` and the `Crazyflie` it wraps, identified by the URI it was made for. */
  datatype Link = Link(uri: Uri)

  /** The four arguments of a commander setpoint. */
  datatype Setpoint = Setpoint(roll: real, pitch: real, yawrate: real, thrust: int)

  /** One request handed to the radio library. */
  datatype Event =
    | PacketSent(port: byte, channel: byte, data: seq<byte>) // cf.send_packet
    | SetpointSent(setpoint: Setpoint)                   // cf.commander.send_setpoint
    | StopSetpointSent                                   // cf.commander.send_stop_setpoint
    | LinkOpened(uri: Uri)                               // scf.open_link, when it succeeds
    | LinkClosed(uri: Uri)                               // scf.close_link

  /** Requests that go over the link to the drone, as opposed to opening or closing it. */
  predicate IsTransmission(e: Event)
  {
    e.PacketSent? || e.SetpointSent? || e.StopSetpointSent?
  }

  /** `struct.pack('<H', x)`: fails (raises `struct.error`) outside the uint16 range. */
  function StructPackU16(x: int): (r: Option<seq<byte>>)
    ensures r.Some? <==> 0 <= x < 0x1_0000
    ensures r.Some? ==> |r.value| == 2 && r.value[0] as int + 0x100 * r.value[1] as int == x
  {
    if 0 <= x < 0x1_0000 then Some([x % 0x100, x / 0x100]) else None
  }

  /** The data of an AutoNav packet: the command byte followed by the payload. */
  function AutonavPacket(command: byte, payload: seq<byte>): (data: seq<byte>)
    ensures |data| == 1 + |payload| && data[0] == command && data[1..] == payload
  {
    [command] + payload
  }

  /** The `shape_names` table of `send_shape`. */
  function ShapeName(shapeId: int): (r: Option<string>)
    ensures r.Some? <==> 1 <= shapeId <= 5
    ensures shapeId == 5 ==> r == Some("Pentagon")
  {
    if shapeId == 1 then Some("Square")
    else if shapeId == 2 then Some("Rectangle")
    else if shapeId == 3 then Some("Oval")
    else if shapeId == 4 then Some("Triangle")
    else if shapeId == 5 then Some("Pentagon")
    else None
  }

  /** What `send_shape` sends: a one-byte packet holding the id, for the five known shapes only. */
  function ShapePacket(shapeId: int): (r: Option<seq<byte>>)
    ensures r.Some? <==> 1 <= shapeId <= 5
    ensures r.Some? ==> |r.value| == 1 && r.value[0] == shapeId
  {
    if ShapeName(shapeId).Some? then Some(AutonavPacket(shapeId, [])) else None
  }

  /** What `send_altitude` sends: SET_ALT_MM and the altitude as a little-endian uint16; nothing
      (the packing raises) when the altitude does not fit in 16 bits. */
  function AltitudePacket(mm: int): (r: Option<seq<byte>>)
    ensures r.Some? <==> 0 <= mm < 0x1_0000
    ensures r.Some? ==> |r.value| == 3 && r.value[0] == SET_ALT_MM
    ensures r.Some? ==> r.value[1] as int + 0x100 * r.value[2] as int == mm
  {
    match StructPackU16(mm)
    case None => None
    case Some(payload) => Some(AutonavPacket(SET_ALT_MM, payload))
  }

  /** What `send_manual_override` sends: one byte, OVERRIDE_ON exactly when enabling. */
  function OverridePacket(enable: bool): (data: seq<byte>)
    ensures |data| == 1 && data[0] in {OVERRIDE_ON, OVERRIDE_OFF}
    ensures data[0] == OVERRIDE_ON <==> enable
  {
    AutonavPacket(if enable then OVERRIDE_ON else OVERRIDE_OFF, [])
  }

  /** `max(lo, min(hi, x))`: saturates x into [lo, hi]. */
  function ClampReal(lo: real, hi: real, x: real): (r: real)
    requires lo <= hi
    ensures lo <= r <= hi
    ensures lo <= x <= hi ==> r == x
    ensures x < lo ==> r == lo
    ensures hi < x ==> r == hi
  {
    var m := if hi < x then hi else x;
    if lo < m then m else lo
  }

  /** `max(lo, min(hi, x))` on integers, for the thrust. It is stated apart from `ClampReal`
      because the source clamps the three angles as floats and the thrust as an int. */
  function ClampInt(lo: int, hi: int, x: int): (r: int)
    requires lo <= hi
    ensures lo <= r <= hi
    ensures lo <= x <= hi ==> r == x
    ensures x < lo ==> r == lo
    ensures hi < x ==> r == hi
  {
    var m := if hi < x then hi else x;
    if lo < m then m else lo
  }

  /** The safe ranges of a manual setpoint. */
  predicate SetpointInRange(s: Setpoint)
  {
    && -30.0 <= s.roll <= 30.0
    && -30.0 <= s.pitch <= 30.0
    && -200.0 <= s.yawrate <= 200.0
    && 0 <= s.thrust <= 0xFFFF
  }

  /** The clamp of `send_manual_control`: each field saturated into its own range, independently. */
  function ClampSetpoint(s: Setpoint): (r: Setpoint)
    ensures SetpointInRange(r)
    ensures SetpointInRange(s) ==> r == s
    ensures -30.0 <= s.roll <= 30.0 ==> r.roll == s.roll
    ensures -30.0 <= s.pitch <= 30.0 ==> r.pitch == s.pitch
    ensures -200.0 <= s.yawrate <= 200.0 ==> r.yawrate == s.yawrate
    ensures 0 <= s.thrust <= 0xFFFF ==> r.thrust == s.thrust
  {
    Setpoint(ClampReal(-30.0, 30.0, s.roll), ClampReal(-30.0, 30.0, s.pitch),
             ClampReal(-200.0, 200.0, s.yawrate), ClampInt(0, 0xFFFF, s.thrust))
  }

  /** Clamping twice is clamping once. */
  lemma ClampSetpointIdempotent(s: Setpoint)
    ensures ClampSetpoint(ClampSetpoint(s)) == ClampSetpoint(s)
  {
  }

  /** Whether the parameter table of contents ever arrives: `initially` is the first reading of
      `cf.param.is_updated`, `polls` the readings taken after each 0.1 s sleep until the 3 s
      window closes. */
  predicate TocArrives(initially: bool, polls: seq<bool>)
  {
    initially || exists k :: 0 <= k < |polls| && polls[k]
  }

  /** The liveness check of `connect`: waits, poll by poll, until the parameter table arrives or
      the window closes, and reports whether it arrived. */
  method AwaitParamToc(initially: bool, polls: seq<bool>) returns (updated: bool)
    ensures updated <==> TocArrives(initially, polls)
  {
    updated := initially;
    if !updated {
      var k := 0;
      while k < |polls| && !updated
        invariant 0 <= k <= |polls|
        invariant updated <==> exists j :: 0 <= j < k && polls[j]
      {
        updated := polls[k];
        k := k + 1;
      }
    }
  }

  /** The connection manager. `trace` records everything handed to the radio library. */
  class DroneConnection {
    var scf: Option<Link>
    var cf: Option<Link>
    var connected: bool
    var uri: Option<Uri>
    var trace: seq<Event>

    /** `cf` is always the Crazyflie of `scf`, and `connected` implies both are present. */
    ghost predicate Valid()
      reads this
    {
      (cf.Some? ==> cf == scf) && (connected ==> cf.Some?)
    }

    /** `__init__` (driver initialisation and logging set-up are not modelled). */
    constructor ()
      ensures Valid() && !connected && scf.None? && cf.None? && uri.None? && trace == []
    {
      scf, cf, connected, uri := None, None, false, None;
      trace := [];
    }

    /** `is_connected` */
    function IsConnected(): (r: bool)
      reads this
      ensures r ==> connected && cf.Some?
      // in a consistent connection the flag alone decides
      ensures Valid() ==> (r <==> connected)
    {
      connected && cf.Some?
    }

    /** `connect`. `linkOpens` says whether `open_link` succeeds; `tocInitially` and `tocPolls` are the
        readings the liveness check sees. On any failure the link is closed, close errors are
        swallowed, and the connection is left fully empty. */
    method Connect(host: string, port: int, linkOpens: bool, tocInitially: bool, tocPolls: seq<bool>)
      returns (ok: bool)
      requires Valid()
      modifies this
      ensures Valid() && uri == Some(Udp(host, port))
      ensures ok <==> linkOpens && TocArrives(tocInitially, tocPolls)
      ensures ok ==> IsConnected() && scf == Some(Link(Udp(host, port))) && cf == scf
      ensures !ok ==> !connected && scf.None? && cf.None?
      ensures trace == old(trace)
        + (if linkOpens then [LinkOpened(Udp(host, port))] else [])
        + (if ok then [] else [LinkClosed(Udp(host, port))])
    {
      var u := Udp(host, port);
      uri := Some(u);
      scf := Some(Link(u));
      var failed := !linkOpens;
      if linkOpens {
        // .open_link() returned
        trace := trace + [LinkOpened(u)];
        cf := scf;
        var updated := AwaitParamToc(tocInitially, tocPolls);
        failed := !updated;
      }
      if failed {
        connected := false;
        if scf.Some? {
          trace := trace + [LinkClosed(scf.value.uri)];
          scf := None;
        }
        cf := None;
        ok := false;
        return;
      }
      connected := true;
      ok := true;
    }

    /** `disconnect`: closes the link if there is one (errors are swallowed) and empties the
        connection; a second call finds nothing to close. `uri` is kept. */
    method Disconnect()
      requires Valid()
      modifies this
      ensures Valid() && !connected && scf.None? && cf.None? && uri == old(uri)
      ensures trace == old(trace) + (if old(scf).Some? then [LinkClosed(old(scf).value.uri)] else [])
    {
      if scf.Some? {
        trace := trace + [LinkClosed(scf.value.uri)];
      }
      connected := false;
      scf := None;
      cf := None;
    }

    /** `_send_autonav_command`: `[command] + payload` on the AutoNav port and channel, when connected. */
    method SendAutonavCommand(command: byte, payload: seq<byte>)
      requires Valid()
      modifies this`trace
      ensures trace == old(trace) +
        if IsConnected() then [PacketSent(AUTONAV_CRTP_PORT, AUTONAV_CRTP_CHANNEL, AutonavPacket(command, payload))]
        else []
    {
      if !IsConnected() {
        return;
      }
      var data := [command] + payload;
      trace := trace + [PacketSent(AUTONAV_CRTP_PORT, AUTONAV_CRTP_CHANNEL, data)];
    }

    /** `send_shape`: unknown ids are refused before anything is sent. */
    method SendShape(shapeId: int)
      requires Valid()
      modifies this`trace
      ensures trace == old(trace) +
        if IsConnected() && ShapePacket(shapeId).Some?
        then [PacketSent(AUTONAV_CRTP_PORT, AUTONAV_CRTP_CHANNEL, ShapePacket(shapeId).value)]
        else []
    {
      if ShapeName(shapeId).None? {
        return;
      }
      SendAutonavCommand(shapeId, []);
    }

    /** `send_stop` */
    method SendStop()
      requires Valid()
      modifies this`trace
      ensures trace == old(trace) +
        if IsConnected() then [PacketSent(AUTONAV_CRTP_PORT, AUTONAV_CRTP_CHANNEL, [STOP])] else []
    {
      assert AutonavPacket(STOP, []) == [STOP];
      SendAutonavCommand(STOP, []);
    }

    /** `send_altitude`. The packing happens before the connection check, so an altitude outside
        the uint16 range raises (`raised`) whether or not the link is up, and sends nothing. */
    method SendAltitude(altitudeMm: int) returns (raised: bool)
      requires Valid()
      modifies this`trace
      ensures raised <==> AltitudePacket(altitudeMm).None?
      ensures trace == old(trace) +
        if IsConnected() && !raised
        then [PacketSent(AUTONAV_CRTP_PORT, AUTONAV_CRTP_CHANNEL, AltitudePacket(altitudeMm).value)]
        else []
    {
      var payload := StructPackU16(altitudeMm);
      if payload.None? {
        return true;
      }
      SendAutonavCommand(SET_ALT_MM, payload.value);
      return false;
    }

    /** `send_manual_override` */
    method SendManualOverride(enable: bool)
      requires Valid()
      modifies this`trace
      ensures trace == old(trace) +
        if IsConnected() then [PacketSent(AUTONAV_CRTP_PORT, AUTONAV_CRTP_CHANNEL, OverridePacket(enable))] else []
    {
      var cmd := if enable then OVERRIDE_ON else OVERRIDE_OFF;
      SendAutonavCommand(cmd, []);
    }

    /** `send_manual_control`: the clamped setpoint, when connected. */
    method SendManualControl(roll: real, pitch: real, yawrate: real, thrust: int)
      requires Valid()
      modifies this`trace
      ensures trace == old(trace) +
        if IsConnected() then [SetpointSent(ClampSetpoint(Setpoint(roll, pitch, yawrate, thrust)))] else []
    {
      if !IsConnected() {
        return;
      }
      var r := ClampReal(-30.0, 30.0, roll);
      var p := ClampReal(-30.0, 30.0, pitch);
      var y := ClampReal(-200.0, 200.0, yawrate);
      var t := ClampInt(0, 65535, thrust);
      trace := trace + [SetpointSent(Setpoint(r, p, y, t))];
    }

    /** `send_stop_setpoint` */
    method SendStopSetpoint()
      requires Valid()
      modifies this`trace
      ensures trace == old(trace) + if IsConnected() then [StopSetpointSent] else []
    {
      if !IsConnected() {
        return;
      }
      trace := trace + [StopSetpointSent];
    }
  }
}
