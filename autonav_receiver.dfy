/** The firmware's AutoNav CRTP receiver: filters incoming packets on port, channel and size,
    dispatches on the first byte to the navigation module, and answers every packet it accepts
    with a three-byte status frame. */
module AutonavReceiver {
  import opened Common
  import opened AutonavProtocol
  import opened AutonavCore

  /** A CRTP packet; its `size` is the length of `data`. */
  datatype CrtpPacket = CrtpPacket(port: nat, channel: nat, data: seq<byte>)

  /** `u16le`: two bytes read as a little-endian 16-bit value. The first byte fills bits 0-7 and
      the shifted second byte bits 8-15, so their bitwise or is their sum. */
  function U16le(p0: byte, p1: byte): (r: uint16)
    ensures r % 0x100 == p0 && r / 0x100 == p1
  {
    p0 as int + p1 as int * 0x100
  }

  /** A call the packet handler makes into the navigation module, in the order made. */
  datatype NavCall =
    | Stop                      // autonavStop (its body is not part of this model)
    | StartShape(shapeId: byte) // autonavStartShape
    | SetTargetAltMm(mm: uint16) // autonavSetTargetAltMm (its body is not part of this model)
    | EnterOverride             // autonavEnterOverride (its body is not part of this model)
    | KickSafety                // autonavKickSafety

  /** A call into a navigation function whose body is not part of this model; what it does to the
      navigation state is not known. */
  predicate BodyUnavailable(c: NavCall)
  {
    c.Stop? || c.SetTargetAltMm? || c.EnterOverride?
  }

  /** The three early returns of `autonav_handle_packet`: a null packet, a packet for another
      port or channel, and an empty packet are dropped. */
  function PassesFilter(pk: Option<CrtpPacket>): (r: bool)
    ensures pk.None? ==> !r
    ensures r ==> |pk.value.data| >= 1
    ensures pk.Some? && |pk.value.data| >= 1 ==>
      (r <==> pk.value.port == AUTONAV_CRTP_PORT as nat && pk.value.channel == AUTONAV_CRTP_CH as nat)
  {
    pk.Some? && pk.value.port == AUTONAV_CRTP_PORT as nat && pk.value.channel == AUTONAV_CRTP_CH as nat
    && |pk.value.data| >= 1
  }

  /** The calls `autonav_handle_packet` makes for one packet. */
  function Dispatch(pk: Option<CrtpPacket>): (calls: seq<NavCall>)
    // a dropped packet causes nothing
    ensures !PassesFilter(pk) ==> calls == []
    // every command that acts refreshes the safety timer, as its last call
    ensures calls != [] ==> |calls| <= 2 && calls[|calls| - 1] == KickSafety
    ensures KickSafety in calls <==> calls != []
    // STOP, the four shapes, altitude and override, each exactly when its code arrives
    ensures Stop in calls <==> PassesFilter(pk) && pk.value.data[0] == 0
    ensures forall id: byte {:trigger StartShape(id)} ::
      StartShape(id) in calls <==> PassesFilter(pk) && pk.value.data[0] == id && 1 <= id <= 4
    ensures forall mm: uint16 {:trigger SetTargetAltMm(mm)} ::
      SetTargetAltMm(mm) in calls <==>
        PassesFilter(pk) && pk.value.data[0] == 5 && |pk.value.data| >= SET_ALT_MM_PACKET_SIZE
        && mm % 0x100 == pk.value.data[1] && mm / 0x100 == pk.value.data[2]
    ensures EnterOverride in calls <==> PassesFilter(pk) && pk.value.data[0] == 10
    ensures calls == [KickSafety] <==> PassesFilter(pk) && pk.value.data[0] == 11
    // a code-5 packet too short to carry the altitude, and any unknown code, do nothing
    ensures PassesFilter(pk) && pk.value.data[0] == 5 && |pk.value.data| < SET_ALT_MM_PACKET_SIZE ==> calls == []
    ensures PassesFilter(pk) && pk.value.data[0] !in {0, 1, 2, 3, 4, 5, 10, 11} ==> calls == []
  {
    if !PassesFilter(pk) then []
    else
      var data := pk.value.data;
      match CmdOfCode(data[0])
      case None => []
      case Some(CmdStop) => [Stop, KickSafety]
      case Some(CmdSquare) => [StartShape(1), KickSafety]
      case Some(CmdRect) => [StartShape(2), KickSafety]
      case Some(CmdOval) => [StartShape(3), KickSafety]
      case Some(CmdTri) => [StartShape(4), KickSafety]
      case Some(CmdSetAltMm) =>
        if |data| >= 3 then [SetTargetAltMm(U16le(data[1], data[2])), KickSafety] else []
      case Some(CmdOverrideOn) => [EnterOverride, KickSafety]
      case Some(CmdOverrideOff) => [KickSafety]
  }

  /** The status frame sent back on the AutoNav port and channel. `state` is what `autonavGetState`
      returned; `downTof` is what `sensorsGetDownTofMm` wrote into the altitude, if anything. */
  function StatusReply(state: byte, downTof: Option<uint16>): (out: CrtpPacket)
    ensures out.port == AUTONAV_CRTP_PORT as nat && out.channel == AUTONAV_CRTP_CH as nat
    ensures |out.data| == AUTONAV_STATUS_SIZE
    ensures out.data[0] == state
    ensures U16le(out.data[1], out.data[2]) == (if downTof.Some? then downTof.value else 0)
  {
    var alt: uint16 := if downTof.Some? then downTof.value else 0;
    CrtpPacket(AUTONAV_CRTP_PORT as nat, AUTONAV_CRTP_CH as nat, StatusBytes(AutonavStatus(state, alt)))
  }

  /** The file-scope state of autonav_crtp.c together with the navigation module it drives:
      the calls made, the frames handed to `crtpSendPacketBlock`, and the once-only start flag. */
  class AutonavCrtp {
    const nav: Autonav
    /** Calls made by the packet handler, oldest first. */
    var calls: seq<NavCall>
    /** Status frames sent, oldest first. */
    var replies: seq<CrtpPacket>
    /** `started` in `autonav_crtp_start` */
    var started: bool
    /** How many receiver tasks `xTaskCreate` was asked for. */
    var tasksCreated: nat

    ghost predicate Valid()
      reads this
    {
      tasksCreated == if started then 1 else 0
    }

    constructor (nav: Autonav)
      ensures Valid() && this.nav == nav
      ensures calls == [] && replies == [] && !started && tasksCreated == 0
    {
      this.nav := nav;
      calls, replies := [], [];
      started, tasksCreated := false, 0;
    }

    /** `autonav_handle_packet`. `clock` is what the kicks read; `navState` is the value
        `autonavGetState` returns after the dispatch. */
    method HandlePacket(pk: Option<CrtpPacket>, clock: Clock, navState: byte, downTof: Option<uint16>)
      modifies this, nav
      ensures calls == old(calls) + Dispatch(pk)
      ensures replies == old(replies) + (if PassesFilter(pk) then [StatusReply(navState, downTof)] else [])
      ensures nav.lastCommandTime == if Dispatch(pk) != [] then NowMs(clock) else old(nav.lastCommandTime)
      // after STOP, SET_ALT_MM and OVERRIDE_ON nothing is promised about the other navigation state
      ensures (forall c <- Dispatch(pk) :: !BodyUnavailable(c)) ==>
        && nav.currentShape ==
             (if PassesFilter(pk) && 1 <= pk.value.data[0] <= 4 then pk.value.data[0] else old(nav.currentShape))
        && nav.obstacleDetected == old(nav.obstacleDetected) && nav.commander == old(nav.commander)
      ensures started == old(started) && tasksCreated == old(tasksCreated)
    {
      if pk.None? {
        return;
      }
      var p := pk.value;
      if p.port != AUTONAV_CRTP_PORT as nat || p.channel != AUTONAV_CRTP_CH as nat {
        return;
      }
      if |p.data| < 1 {
        return;
      }
      var cmd := p.data[0];
      match CmdOfCode(cmd) {
        case Some(CmdStop) =>
          calls := calls + [Stop];
          Kick(clock);
        case Some(CmdSquare) =>
          ShapeThenKick(1, clock);
        case Some(CmdRect) =>
          ShapeThenKick(2, clock);
        case Some(CmdOval) =>
          ShapeThenKick(3, clock);
        case Some(CmdTri) =>
          ShapeThenKick(4, clock);
        case Some(CmdSetAltMm) =>
          if |p.data| >= 3 {
            var mm := U16le(p.data[1], p.data[2]);
            calls := calls + [SetTargetAltMm(mm)];
            Kick(clock);
          }
        case Some(CmdOverrideOn) =>
          calls := calls + [EnterOverride];
          Kick(clock);
        case Some(CmdOverrideOff) =>
          Kick(clock);
        case None =>
      }
      var alt: uint16 := if downTof.Some? then downTof.value else 0;
      var s := AutonavStatus(navState, alt);
      var out := CrtpPacket(AUTONAV_CRTP_PORT as nat, AUTONAV_CRTP_CH as nat, StatusBytes(s));
      replies := replies + [out];
    }

    /** One `autonavKickSafety()` call made by the handler. */
    method Kick(clock: Clock)
      modifies this, nav
      ensures calls == old(calls) + [KickSafety] && replies == old(replies)
      ensures nav.lastCommandTime == NowMs(clock) && nav.currentShape == old(nav.currentShape)
      ensures nav.obstacleDetected == old(nav.obstacleDetected) && nav.commander == old(nav.commander)
      ensures started == old(started) && tasksCreated == old(tasksCreated)
    {
      nav.KickSafety(clock);
      calls := calls + [KickSafety];
    }

    /** `autonavStartShape(id); autonavKickSafety();` as the four shape cases do. */
    method ShapeThenKick(id: byte, clock: Clock)
      modifies this, nav
      ensures calls == old(calls) + [StartShape(id), KickSafety] && replies == old(replies)
      ensures nav.lastCommandTime == NowMs(clock) && nav.currentShape == id
      ensures nav.obstacleDetected == old(nav.obstacleDetected) && nav.commander == old(nav.commander)
      ensures started == old(started) && tasksCreated == old(tasksCreated)
    {
      nav.StartShape(id, clock);
      calls := calls + [StartShape(id)];
      Kick(clock);
    }

    /** `autonav_crtp_start`: creates the receiver task on the first call only. */
    method Start()
      requires Valid()
      modifies this
      ensures Valid() && started && tasksCreated == 1
      ensures old(started) ==> tasksCreated == old(tasksCreated)
      ensures calls == old(calls) && replies == old(replies)
    {
      if started {
        return;
      }
      started := true;
      tasksCreated := tasksCreated + 1;
    }
  }
}
