/** The firmware's autonomous-navigation module: three module variables, a safety timer that is
    refreshed by every accepted command, and a periodic update that lands the drone once no
    command has arrived for 30 seconds, or holds position while an obstacle is reported. */
module AutonavCore {
  import opened Common

  const AUTONAV_TIMEOUT_MS: int := 30000

  /** A call the update step makes into the commander; the commander itself is not part of this model. */
  datatype CommanderCall = Land | Hover

  /** What `autonavKickSafety` reads from the RTOS: the tick counter and the tick period in ms. */
  datatype Clock = Clock(tickCount: uint32, tickPeriodMs: uint32)

  /** `xTaskGetTickCount() * portTICK_PERIOD_MS`: a product of two 32-bit unsigned values, which wraps. */
  function NowMs(c: Clock): (r: uint32)
    ensures c.tickCount as int * c.tickPeriodMs as int < UINT32_MODULUS ==> r == c.tickCount * c.tickPeriodMs
    ensures (c.tickCount * c.tickPeriodMs - r) % UINT32_MODULUS == 0
  {
    (c.tickCount * c.tickPeriodMs) % UINT32_MODULUS
  }

  /** `a - b` on `uint32_t`: the distance forward from `b` to `a` around the 32-bit circle. */
  function WrapSub(a: uint32, b: uint32): (d: uint32)
    ensures (b + d) % UINT32_MODULUS == a
    ensures b <= a ==> d == a - b
    ensures a < b ==> d == a + UINT32_MODULUS - b
  {
    (a - b) % UINT32_MODULUS
  }

  /** The guard of the landing branch of `autonavUpdate`. A `lastCommandTime` of 0 means that the
      timer was never armed; the comparison with the timeout is strict. */
  function TimedOut(lastCommandTime: uint32, tickMs: uint32): (r: bool)
    ensures lastCommandTime == 0 ==> !r
    ensures 0 < lastCommandTime <= tickMs ==> (r <==> tickMs - lastCommandTime > AUTONAV_TIMEOUT_MS)
    ensures tickMs < lastCommandTime ==> (r <==> tickMs + UINT32_MODULUS - lastCommandTime > AUTONAV_TIMEOUT_MS)
  {
    lastCommandTime > 0 && WrapSub(tickMs, lastCommandTime) > AUTONAV_TIMEOUT_MS
  }

  /** Once the timeout has elapsed it stays elapsed at every later time, as long as the elapsed
      time has not gone once round the 32-bit clock. Since `autonavUpdate` never changes
      `lastCommandTime`, every update in that window lands again until the next kick. */
  lemma {:induction false} TimeoutPersists(lastCommandTime: uint32, tickMs: uint32, later: nat)
    requires TimedOut(lastCommandTime, tickMs)
    requires WrapSub(tickMs, lastCommandTime) + later < UINT32_MODULUS
    ensures TimedOut(lastCommandTime, (tickMs + later) % UINT32_MODULUS)
  {
    var d := WrapSub(tickMs, lastCommandTime);
    var t' := (tickMs + later) % UINT32_MODULUS;
    assert (lastCommandTime + d) % UINT32_MODULUS == tickMs;
    assert (lastCommandTime + d + later) % UINT32_MODULUS == t';
    assert WrapSub(t', lastCommandTime) == d + later by {
      var e := WrapSub(t', lastCommandTime);
      assert (lastCommandTime + e) % UINT32_MODULUS == t';
      assert (lastCommandTime + e) % UINT32_MODULUS == (lastCommandTime + d + later) % UINT32_MODULUS;
      assert 0 <= e < UINT32_MODULUS && 0 <= d + later < UINT32_MODULUS;
      ModEqualSmall(lastCommandTime, e, d + later);
    }
  }

  /** Two offsets below the modulus that land on the same residue are equal. */
  lemma ModEqualSmall(base: int, e: int, f: int)
    requires 0 <= e < UINT32_MODULUS && 0 <= f < UINT32_MODULUS
    requires (base + e) % UINT32_MODULUS == (base + f) % UINT32_MODULUS
    ensures e == f
  {
    var m := UINT32_MODULUS;
    var q1, q2 := (base + e) / m, (base + f) / m;
    assert base + e == q1 * m + (base + e) % m;
    assert base + f == q2 * m + (base + f) % m;
    assert e - f == (q1 - q2) * m;
  }

  /** The module variables of autonav.c, and the commander calls `autonavUpdate` has made. */
  class Autonav {
    var lastCommandTime: uint32
    var currentShape: byte
    var obstacleDetected: bool
    /** Calls into the commander, oldest first. */
    var commander: seq<CommanderCall>

    /** The static initialisers. */
    constructor ()
      ensures lastCommandTime == 0 && currentShape == 0 && !obstacleDetected
      ensures commander == []
    {
      lastCommandTime, currentShape, obstacleDetected := 0, 0, false;
      commander := [];
    }

    /** `autonavInit`: disarms the safety timer and forgets the shape and the obstacle. */
    method Init()
      modifies this
      ensures lastCommandTime == 0 && currentShape == 0 && !obstacleDetected
      ensures commander == old(commander)
      // until the next kick or shape start, no update can time out
      ensures forall t: uint32 :: !TimedOut(lastCommandTime, t)
    {
      lastCommandTime := 0;
      currentShape := 0;
      obstacleDetected := false;
    }

    /** `autonavKickSafety`: restarts the safety timer at the current time. */
    method KickSafety(clock: Clock)
      modifies this
      ensures lastCommandTime == NowMs(clock)
      ensures currentShape == old(currentShape) && obstacleDetected == old(obstacleDetected)
      ensures commander == old(commander)
    {
      lastCommandTime := NowMs(clock);
    }

    /** `autonavSetObstacle` */
    method SetObstacle(detected: bool)
      modifies this
      ensures obstacleDetected == detected
      ensures lastCommandTime == old(lastCommandTime) && currentShape == old(currentShape)
      ensures commander == old(commander)
    {
      obstacleDetected := detected;
    }

    /** `autonavStartShape`: selects the shape and kicks the safety timer. */
    method StartShape(shapeId: byte, clock: Clock)
      modifies this
      ensures currentShape == shapeId && lastCommandTime == NowMs(clock)
      ensures obstacleDetected == old(obstacleDetected) && commander == old(commander)
    {
      currentShape := shapeId;
      KickSafety(clock);
    }

    /** `autonavUpdate`: the timeout is checked first and takes precedence over the obstacle hold;
        with neither, nothing happens (the shape trajectories are not implemented). The timer and
        the obstacle flag are never touched. */
    method Update(tickMs: uint32)
      modifies this
      ensures lastCommandTime == old(lastCommandTime) && obstacleDetected == old(obstacleDetected)
      ensures TimedOut(lastCommandTime, tickMs) ==>
        currentShape == 0 && commander == old(commander) + [Land]
      ensures !TimedOut(lastCommandTime, tickMs) && obstacleDetected ==>
        currentShape == old(currentShape) && commander == old(commander) + [Hover]
      ensures !TimedOut(lastCommandTime, tickMs) && !obstacleDetected ==>
        currentShape == old(currentShape) && commander == old(commander)
      ensures Hover in commander[|old(commander)|..] ==> !TimedOut(lastCommandTime, tickMs)
    {
      if lastCommandTime > 0 && WrapSub(tickMs, lastCommandTime) > AUTONAV_TIMEOUT_MS {
        commander := commander + [Land];
        currentShape := 0;
        return;
      }
      if obstacleDetected {
        commander := commander + [Hover];
        return;
      }
      // The shape trajectories (a square for 1, a circle for 2) are TODO cases in the source and
      // do nothing, so following a shape changes no state.
    }
  }
}
