/** The firmware's AutoNav wire interface: the CRTP port and channel the receiver listens on,
    the command codes it understands, and the layout of the status frame it sends back. */
module AutonavProtocol {
  import opened Common

  const AUTONAV_CRTP_PORT: byte := 0x0D
  const AUTONAV_CRTP_CH: byte := 0

  /** Commands from the ground station to the drone. */
  datatype AutonavCmd =
    | CmdStop
    | CmdSquare
    | CmdRect
    | CmdOval
    | CmdTri
    | CmdSetAltMm     // one uint16 argument: the target altitude in millimetres
    | CmdOverrideOn
    | CmdOverrideOff

  /** The numeric value of each enumerator. */
  function CmdCode(c: AutonavCmd): (r: byte)
    ensures r in {0, 1, 2, 3, 4, 5, 10, 11}
    // the four shape commands occupy codes 1 to 4, and only the two override commands lie above 5
    ensures 1 <= r <= 4 <==> c.CmdSquare? || c.CmdRect? || c.CmdOval? || c.CmdTri?
    ensures r > 5 <==> c.CmdOverrideOn? || c.CmdOverrideOff?
  {
    match c
    case CmdStop => 0
    case CmdSquare => 1
    case CmdRect => 2
    case CmdOval => 3
    case CmdTri => 4
    case CmdSetAltMm => 5
    case CmdOverrideOn => 10
    case CmdOverrideOff => 11
  }

  /** The command a first byte names. The codes are pairwise distinct, so each byte names at most
      one command, and exactly the eight enumerator values name one. */
  function CmdOfCode(b: byte): (r: Option<AutonavCmd>)
    ensures forall c :: CmdCode(c) == b <==> r == Some(c)
    ensures r.None? <==> b !in {0, 1, 2, 3, 4, 5, 10, 11}
  {
    if b == 0 then Some(CmdStop)
    else if b == 1 then Some(CmdSquare)
    else if b == 2 then Some(CmdRect)
    else if b == 3 then Some(CmdOval)
    else if b == 4 then Some(CmdTri)
    else if b == 5 then Some(CmdSetAltMm)
    else if b == 10 then Some(CmdOverrideOn)
    else if b == 11 then Some(CmdOverrideOff)
    else None
  }

  /** Bytes on the wire of a SET_ALT_MM packet: the code and its uint16 argument. */
  const SET_ALT_MM_PACKET_SIZE: nat := 1 + 2

  /** The packed status frame: an `autonav_state_t` value in one byte, then the latest
      down-facing distance in millimetres (0 when unavailable). */
  datatype AutonavStatus = AutonavStatus(state: byte, altMm: uint16)

  /** `sizeof(autonav_status_t)`: the struct is packed, so there is no padding after `state`. */
  const AUTONAV_STATUS_SIZE: nat := 1 + 2

  /** The bytes a `memcpy` of a status value yields on the little-endian ESP32. */
  function StatusBytes(s: AutonavStatus): (r: seq<byte>)
    ensures |r| == AUTONAV_STATUS_SIZE
    ensures r[0] == s.state && r[1] as int + 0x100 * r[2] as int == s.altMm
  {
    [s.state, s.altMm % 0x100, s.altMm / 0x100]
  }

  /** Distinct status values have distinct frames, so the frame carries the whole status. */
  lemma StatusBytesInjective(s: AutonavStatus, t: AutonavStatus)
    requires StatusBytes(s) == StatusBytes(t)
    ensures s == t
  {
    var r := StatusBytes(s);
    assert r[1] as int + 0x100 * r[2] as int == s.altMm && r[1] as int + 0x100 * r[2] as int == t.altMm;
  }
}
