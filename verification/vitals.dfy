/**
 Health bookkeeping: the hazard drain taken on every state query, the
 drain of a critical error, and healing. Each periodic process is modelled
 by its per-tick body; healing is run to completion as a loop.
 */
module Vitals {

  import opened Terrain
  import opened Unit

  /** Health a state query costs on the given surface. */
  function HazardLoss(l: Label): int
  {
    match l
    case Acid => 10
    case Water => 1
    case _ => 0
  }

  /** The health part of `getState`: a drain by the surface under the robot. */
  function Query(t: Volume, r: Robot): (r': Robot)
    ensures r' == r.(health := r'.health)
    ensures SurfaceUnder(t, r.coords) == Acid ==> r'.health == r.health - 10
    ensures SurfaceUnder(t, r.coords) == Water ==> r'.health == r.health - 1
    ensures SurfaceUnder(t, r.coords) !in {Acid, Water} ==> r'.health == r.health
  {
    r.(health := r.health - HazardLoss(SurfaceUnder(t, r.coords)))
  }

  /** `n` state queries in a row. */
  function Queries(t: Volume, r: Robot, n: nat): Robot
  {
    if n == 0 then r else Query(t, Queries(t, r, n - 1))
  }

  /** Each query drains once, and only health changes. */
  lemma {:induction false} QueriesDrainOncePerCall(t: Volume, r: Robot, n: nat)
    ensures Queries(t, r, n) == r.(health := r.health - n * HazardLoss(SurfaceUnder(t, r.coords)))
  {
    if n > 0 {
      QueriesDrainOncePerCall(t, r, n - 1);
      assert n * HazardLoss(SurfaceUnder(t, r.coords))
          == (n - 1) * HazardLoss(SurfaceUnder(t, r.coords)) + HazardLoss(SurfaceUnder(t, r.coords));
    }
  }

  /** Health lost per tick while a critical error is active. */
  const FaultLoss: int := 100

  /** `initCriticalError`: the flag is set and the drain starts. */
  function RaiseFault(r: Robot): (r': Robot)
    ensures r'.criticalError
    ensures r' == r.(criticalError := true)
  {
    r.(criticalError := true)
  }

  /** `fixCriticalError`: the flag is cleared and the drain stops. */
  function ClearFault(r: Robot): (r': Robot)
    ensures !r'.criticalError
    ensures r' == r.(criticalError := false)
  {
    r.(criticalError := false)
  }

  /** One tick of the critical-error drain. The interval body does not read
      the flag, so a tick applies whatever its value. */
  function FaultTick(r: Robot): (r': Robot)
    ensures r' == r.(health := r'.health)
    ensures r'.health == r.health - 100
  {
    r.(health := r.health - FaultLoss)
  }

  /** `n` drain ticks. */
  function FaultTicks(r: Robot, n: nat): (r': Robot)
    ensures r'.criticalError == r.criticalError
    ensures r'.coords == r.coords && r'.direction == r.direction && r'.mode == r.mode
  {
    if n == 0 then r else FaultTick(FaultTicks(r, n - 1))
  }

  /** A critical error raised, left for `n` ticks and then fixed costs
      exactly 100 health per tick and changes nothing else. */
  lemma {:induction false} FaultLifecycle(r: Robot, n: nat)
    ensures ClearFault(FaultTicks(RaiseFault(r), n)) == r.(health := r.health - n * 100, criticalError := false)
  {
    if n > 0 {
      FaultLifecycle(r, n - 1);
    }
  }

  const HealCap: int := 10000
  const HealAmount: int := 10
  const HealTickLimit: nat := 100

  /** The healing process: current health, increments made so far, whether
      the interval is still scheduled. */
  datatype Healing = Healing(health: int, counter: nat, running: bool)

  /** One tick of the healing interval. */
  function HealTick(s: Healing): (s': Healing)
    requires s.running
    ensures s.health >= 10000 ==> s' == s.(running := false)
    ensures s.health < 10000 ==>
      && s'.health == s.health + 10
      && s'.counter == s.counter + 1
      && (s'.running <==> s'.counter != 100)
  {
    if s.health >= HealCap then s.(running := false)
    else
      var counter := s.counter + 1;
      Healing(s.health + HealAmount, counter, counter != HealTickLimit)
  }

  /** `heal`, run until it stops itself: the health reached and the number
      of ticks that added to it. */
  method Heal(health: int) returns (healed: int, increments: nat)
    ensures increments <= 100
    ensures healed == health + 10 * increments
    ensures increments == 100 || healed >= 10000
    ensures 0 < increments ==> health + 10 * (increments - 1) < 10000
    ensures health >= 10000 ==> healed == health && increments == 0
    ensures health < 10000 ==> healed < 10010
    ensures health == 9950 ==> healed == 10000 && increments == 5
  {
    var s := Healing(health, 0, true);
    while s.running
      invariant s.counter <= HealTickLimit
      invariant s.health == health + HealAmount * s.counter
      invariant s.running ==> s.counter < HealTickLimit
      invariant 0 < s.counter ==> health + HealAmount * (s.counter - 1) < HealCap
      invariant !s.running ==> s.counter == HealTickLimit || s.health >= HealCap
      decreases s.running, HealTickLimit - s.counter
    {
      s := HealTick(s);
    }
    healed, increments := s.health, s.counter;
  }

}
