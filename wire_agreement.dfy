/** What the firmware's receiver does with the packets the ground station sends: the two sides
    agree on port, channel, command codes and altitude byte order, and disagree on code 5. */
module WireAgreement {
  import opened Common
  import opened Connection
  import opened AutonavProtocol
  import opened AutonavReceiver

  /** The CRTP packet the firmware receives for a packet the controller handed to the radio. */
  function Delivered(e: Event): (pk: Option<CrtpPacket>)
    ensures pk.Some? <==> e.PacketSent?
    ensures pk.Some? ==> pk.value.data == e.data
    ensures pk.Some? ==> pk.value.port == e.port as nat && pk.value.channel == e.channel as nat
  {
    if e.PacketSent? then Some(CrtpPacket(e.port as nat, e.channel as nat, e.data)) else None
  }

  /** The controller addresses the port and channel the firmware listens on. */
  lemma PortAndChannelAgree()
    ensures Connection.AUTONAV_CRTP_PORT == AutonavProtocol.AUTONAV_CRTP_PORT
    ensures Connection.AUTONAV_CRTP_CHANNEL == AutonavProtocol.AUTONAV_CRTP_CH
  {
  }

  /** The firmware's little-endian read undoes the controller's `struct.pack('<H')`. */
  lemma U16leInvertsStructPack(x: uint16)
    ensures StructPackU16(x).Some? && |StructPackU16(x).value| == 2
    ensures U16le(StructPackU16(x).value[0], StructPackU16(x).value[1]) == x
  {
    var p := StructPackU16(x).value;
    assert p == [x % 0x100, x / 0x100];
  }

  /** Every AutoNav packet the controller can build passes the firmware's filter, so it is
      answered with exactly one status frame. */
  lemma ControllerPacketsPassFilter(command: byte, payload: seq<byte>)
    ensures PassesFilter(Delivered(PacketSent(Connection.AUTONAV_CRTP_PORT, AUTONAV_CRTP_CHANNEL,
                                              AutonavPacket(command, payload))))
  {
  }

  /** The controller's command constants name the firmware commands of the same name; PENTAGON
      and SET_ALT_MM share code 5, which the firmware reads as SET_ALT_MM only. */
  lemma CommandCodesAgree()
    ensures CmdOfCode(Connection.STOP) == Some(CmdStop)
    ensures CmdOfCode(SQUARE) == Some(CmdSquare) && CmdOfCode(RECT) == Some(CmdRect)
    ensures CmdOfCode(OVAL) == Some(CmdOval) && CmdOfCode(TRI) == Some(CmdTri)
    ensures CmdOfCode(SET_ALT_MM) == Some(CmdSetAltMm) && CmdOfCode(PENTAGON) == Some(CmdSetAltMm)
    ensures CmdOfCode(OVERRIDE_ON) == Some(CmdOverrideOn) && CmdOfCode(OVERRIDE_OFF) == Some(CmdOverrideOff)
  {
  }

  /** A pentagon packet is the first byte of every altitude packet: the two differ only in length. */
  lemma PentagonIsTruncatedAltitude(mm: uint16)
    ensures ShapePacket(5).Some? && AltitudePacket(mm).Some?
    ensures |ShapePacket(5).value| == 1 && |AltitudePacket(mm).value| == 3
    ensures ShapePacket(5).value == AltitudePacket(mm).value[..1]
  {
  }

  /** The altitude the controller sends is the altitude the firmware sets, and the timer is kicked. */
  lemma AltitudeReachesFirmware(mm: uint16)
    ensures AltitudePacket(mm).Some?
    ensures Dispatch(Delivered(PacketSent(Connection.AUTONAV_CRTP_PORT, AUTONAV_CRTP_CHANNEL, AltitudePacket(mm).value)))
         == [SetTargetAltMm(mm), KickSafety]
  {
    var data := AltitudePacket(mm).value;
    U16leInvertsStructPack(mm);
    assert data == [SET_ALT_MM] + StructPackU16(mm).value;
    assert U16le(data[1], data[2]) == mm;
  }

  /** Square, rectangle, oval and triangle start the shape of the same number. */
  lemma ShapesReachFirmware(shapeId: int)
    requires 1 <= shapeId <= 4
    ensures ShapePacket(shapeId).Some?
    ensures Dispatch(Delivered(PacketSent(Connection.AUTONAV_CRTP_PORT, AUTONAV_CRTP_CHANNEL, ShapePacket(shapeId).value)))
         == [StartShape(shapeId), KickSafety]
  {
  }

  /** The pentagon packet reaches the firmware as a SET_ALT_MM too short to carry an altitude:
      it starts nothing, sets nothing and does not even kick the safety timer. It still passes the
      filter, so the receiver answers it with a status frame like any accepted packet. */
  lemma PentagonHasNoEffect()
    ensures ShapePacket(PENTAGON).Some?
    ensures PassesFilter(Delivered(PacketSent(Connection.AUTONAV_CRTP_PORT, AUTONAV_CRTP_CHANNEL, ShapePacket(PENTAGON).value)))
    ensures Dispatch(Delivered(PacketSent(Connection.AUTONAV_CRTP_PORT, AUTONAV_CRTP_CHANNEL, ShapePacket(PENTAGON).value)))
         == []
  {
  }

  /** Override ON enters override; override OFF only refreshes the safety timer. */
  lemma OverrideReachesFirmware(enable: bool)
    ensures Dispatch(Delivered(PacketSent(Connection.AUTONAV_CRTP_PORT, AUTONAV_CRTP_CHANNEL, OverridePacket(enable))))
         == if enable then [EnterOverride, KickSafety] else [KickSafety]
  {
  }

  /** STOP stops autonomous flight. */
  lemma StopReachesFirmware()
    ensures Dispatch(Delivered(PacketSent(Connection.AUTONAV_CRTP_PORT, AUTONAV_CRTP_CHANNEL, [Connection.STOP])))
         == [AutonavReceiver.Stop, KickSafety]
  {
  }
}
