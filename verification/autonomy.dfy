/**
 One tick of the automatic-mode loop: escape water forward, escape acid
 backward, otherwise head for one of the nearby features and step forward.
 The feature is chosen at random in the robot; here its index is a parameter.
 */
module Autonomy {

  import opened Options
  import opened Terrain
  import opened Unit
  import opened Proximity
  import opened Movement

  /** Radius of the scan the loop performs on every tick. */
  const ScanRadius: nat := 5

  /** The facing that points at `f`: along x first, then comparing the
      feature's second stored coordinate with the robot's z; unchanged when
      both agree. */
  function Heading(c: Coords, f: Feature, d: Direction): Direction
  {
    if f.coords.x > c.x then East
    else if f.coords.x < c.x then West
    else if f.coords.y > c.z then North
    else if f.coords.y < c.z then South
    else d
  }

  /** The interval body of automatic mode, with `pick` the random index. */
  function Tick(t: Volume, r: Robot, pick: nat): (e: Effect)
    requires WellFormed(t) && Placed(t, r.coords)
    requires var n := |NearLocations(t, r.coords, ScanRadius)|; 0 < n ==> pick < n
    ensures e.robot.mode == r.mode && e.robot.criticalError == r.criticalError
    ensures SurfaceUnder(t, r.coords) == Water ==> e == MoveForward(t, r)
    ensures SurfaceUnder(t, r.coords) == Acid ==> e == MoveBackward(t, r)
    ensures SurfaceUnder(t, r.coords) !in {Water, Acid} && |NearLocations(t, r.coords, ScanRadius)| == 0 ==>
      e == Effect(r, None)
    ensures SurfaceUnder(t, r.coords) !in {Water, Acid} && 0 < |NearLocations(t, r.coords, ScanRadius)| ==>
      var f := NearLocations(t, r.coords, ScanRadius)[pick];
      && e == MoveForward(t, r.(direction := Heading(r.coords, f, r.direction)))
      && e.robot.direction == Heading(r.coords, f, r.direction)
    ensures Placed(t, e.robot.coords)
  {
    var near := NearLocations(t, r.coords, ScanRadius);
    match SurfaceUnder(t, r.coords)
    case Water => MoveForward(t, r)
    case Acid => MoveBackward(t, r)
    case _ =>
      if |near| == 0 then Effect(r, None)
      else MoveForward(t, r.(direction := Heading(r.coords, near[pick], r.direction)))
  }

  /** Distance from a position to a feature on the two axes the tick compares. */
  function Gap(c: Coords, f: Feature): nat
  {
    (if f.coords.x < c.x then c.x - f.coords.x else f.coords.x - c.x)
    + (if f.coords.y < c.z then c.z - f.coords.y else f.coords.y - c.z)
  }

  /** When the tick heads for a feature it is not already level with and the
      step is accepted, the settled position is one step closer to it. */
  lemma TickApproaches(t: Volume, r: Robot, pick: nat)
    requires WellFormed(t) && Placed(t, r.coords)
    requires SurfaceUnder(t, r.coords) !in {Water, Acid}
    requires pick < |NearLocations(t, r.coords, ScanRadius)|
    requires var f := NearLocations(t, r.coords, ScanRadius)[pick];
      Gap(r.coords, f) > 0 && Target(t, r.coords, Heading(r.coords, f, r.direction), 1).Some?
    ensures var f := NearLocations(t, r.coords, ScanRadius)[pick];
      Gap(Settle(Tick(t, r, pick)).coords, f) == Gap(r.coords, f) - 1
  {
  }

}
