/**
 `move` and the four moves built on it. A move either is rejected (nothing
 changes) or resolves a target position; fall damage is applied at once,
 while the position itself is committed after a delay that depends on the
 surface the robot stands on. Instead of scheduling that commit, a move
 returns it as a pending value.
 */
module Movement {

  import opened Options
  import opened Terrain
  import opened Unit
  import opened Placement

  /** A position update waiting `delay` milliseconds before it is applied. */
  datatype Commit = Commit(delay: nat, target: Coords)

  /** The robot right after a command, with the commit still to fire, if any. */
  datatype Effect = Effect(robot: Robot, pending: Option<Commit>)

  const SlowSurfaceDelay: nat := 5000
  const WaterDelay: nat := 10000

  /** Delay of the position commit for the surface the robot leaves from. */
  function CommitDelay(l: Label): nat
  {
    match l
    case Sand => SlowSurfaceDelay
    case Acid => SlowSurfaceDelay
    case Water => WaterDelay
    case _ => 0
  }

  /** Health lost on a fall of `drop` levels. */
  function FallDamage(drop: int): int
  {
    if drop > 3 then drop * 100 else 0
  }

  /** The horizontal candidate: `steps` along the axis `d` names. */
  function Shift(c: Coords, d: Direction, steps: int): Coords
  {
    match d
    case North => c.(z := c.z + steps)
    case South => c.(z := c.z - steps)
    case East => c.(x := c.x + steps)
    case West => c.(x := c.x - steps)
  }

  /** Where a move from `c` ends, or None when the move is refused: the
      candidate is out of bounds, both probe cells are solid, or the column
      under the probe is air all the way down. */
  function Target(t: Volume, c: Coords, d: Direction, steps: int): (tg: Option<Coords>)
    ensures var n := Shift(c, d, steps);
      tg.None? <==>
        || !InBounds(t, n)
        || Blocked(t, n.x, n.z, c.y)
        || AllAir(t, n.x, n.z, 0, ProbeStart(t, n.x, n.z, c.y))
    ensures tg.Some? ==>
      var v := tg.value;
      && v.x == Shift(c, d, steps).x && v.z == Shift(c, d, steps).z
      && InBounds(t, v)
      && !Blocked(t, v.x, v.z, c.y)
      && 1 <= v.y <= ProbeStart(t, v.x, v.z, c.y) <= c.y + 1
      && Sample(t, v.x, v.z, v.y - 1) != Air
      && AllAir(t, v.x, v.z, v.y, ProbeStart(t, v.x, v.z, c.y))
  {
    var n := Shift(c, d, steps);
    if !InBounds(t, n) then None
    else match Rest(t, n.x, n.z, c.y)
      case None => None
      case Some(y) => Some(n.(y := y))
  }

  /** `move(direction, steps)`. */
  function Move(t: Volume, r: Robot, d: Direction, steps: int): (e: Effect)
    requires WellFormed(t) && Placed(t, r.coords)
    ensures e.robot.direction == r.direction && e.robot.mode == r.mode
    ensures e.robot.criticalError == r.criticalError
    ensures Target(t, r.coords, d, steps).None? ==> e == Effect(r, None)
    ensures Target(t, r.coords, d, steps).Some? ==>
      var v := Target(t, r.coords, d, steps).value;
      var drop := r.coords.y - v.y;
      var surface := SurfaceUnder(t, r.coords);
      && (drop > 3 ==> e.robot.health == r.health - drop * 100)
      && (drop <= 3 ==> e.robot.health == r.health)
      && ((surface == Sand || surface == Acid) ==> e.robot.coords == r.coords && e.pending == Some(Commit(5000, v)))
      && (surface == Water ==> e.robot.coords == r.coords && e.pending == Some(Commit(10000, v)))
      && (surface !in {Sand, Acid, Water} ==> e.robot.coords == v && e.pending == None)
    ensures Placed(t, e.robot.coords)
    ensures e.pending.Some? ==> InBounds(t, e.pending.value.target) && e.pending.value.delay > 0
    ensures e.robot.coords == r.coords || InBounds(t, e.robot.coords)
  {
    match Target(t, r.coords, d, steps)
    case None => Effect(r, None)
    case Some(v) =>
      var hurt := r.(health := r.health - FallDamage(r.coords.y - v.y));
      var delay := CommitDelay(SurfaceUnder(t, r.coords));
      if delay == 0 then Effect(hurt.(coords := v), None)
      else Effect(hurt, Some(Commit(delay, v)))
  }

  /** The robot once its pending commit, if any, has fired. */
  function Settle(e: Effect): Robot
  {
    match e.pending
    case None => e.robot
    case Some(c) => e.robot.(coords := c.target)
  }

  /** Once settled, a move changes the position only along the axis the
      direction names, by `steps`, and in altitude, never climbing more than
      one level; health changes only by fall damage, whatever the delay. */
  lemma SettledMove(t: Volume, r: Robot, d: Direction, steps: int)
    requires WellFormed(t) && Placed(t, r.coords)
    ensures var s := Settle(Move(t, r, d, steps));
      var c := r.coords;
      && s.direction == r.direction && s.mode == r.mode && s.criticalError == r.criticalError
      && (Target(t, c, d, steps).None? ==> s == r)
      && (Target(t, c, d, steps).Some? ==>
            && s.coords.y <= c.y + 1
            && s.health == r.health - FallDamage(c.y - s.coords.y)
            && (d == North ==> s.coords.x == c.x && s.coords.z == c.z + steps)
            && (d == South ==> s.coords.x == c.x && s.coords.z == c.z - steps)
            && (d == East ==> s.coords.z == c.z && s.coords.x == c.x + steps)
            && (d == West ==> s.coords.z == c.z && s.coords.x == c.x - steps))
  {
  }

  /** A rejected move, including one off the edge of the volume, changes nothing. */
  lemma OutOfBoundsIsNoOp(t: Volume, r: Robot, d: Direction, steps: int)
    requires WellFormed(t) && Placed(t, r.coords)
    requires !InBounds(t, Shift(r.coords, d, steps))
    ensures Move(t, r, d, steps) == Effect(r, None)
  {
  }

  /** `moveForward`: one step along the facing; a refused step changes
      nothing, an accepted one settles on the target one cell ahead. */
  /** A robot whose z is inside `map[0]` but not inside `map[0][0]` can
      stand where it is, and a step back into the checked range is accepted. */
  lemma SpawnBeyondCheckedRange()
    ensures var t: Volume := [[[Soil, Air], [Soil, Air], [Soil, Air]]];
      var c := Coords(0, 1, 2);
      && WellFormed(t) && Placed(t, c) && !InBounds(t, c)
      && Target(t, c, South, 1) == Some(Coords(0, 1, 1))
  {
    var t: Volume := [[[Soil, Air], [Soil, Air], [Soil, Air]]];
    assert Sample(t, 0, 1, 1) == Air && Sample(t, 0, 1, 0) == Soil;
    assert Ground(t, 0, 1, 1) == 0;
  }

  function MoveForward(t: Volume, r: Robot): (e: Effect)
    requires WellFormed(t) && Placed(t, r.coords)
    ensures e.robot.direction == r.direction
    ensures var tg := Target(t, r.coords, r.direction, 1);
      && (tg.None? ==> e == Effect(r, None))
      && (tg.Some? ==> Settle(e).coords == tg.value && tg.value.x == Shift(r.coords, r.direction, 1).x
                       && tg.value.z == Shift(r.coords, r.direction, 1).z)
  {
    Move(t, r, r.direction, 1)
  }

  /** `moveBackward`: one step against the facing, the direction unchanged. */
  function MoveBackward(t: Volume, r: Robot): (e: Effect)
    requires WellFormed(t) && Placed(t, r.coords)
    ensures e.robot.direction == r.direction
    ensures var tg := Target(t, r.coords, r.direction, -1);
      && (tg.None? ==> e == Effect(r, None))
      && (tg.Some? ==> Settle(e).coords == tg.value && tg.value.x == Shift(r.coords, r.direction, -1).x
                       && tg.value.z == Shift(r.coords, r.direction, -1).z)
  {
    Move(t, r, r.direction, -1)
  }

  /** `moveLeft`: the backward move, then a left turn applied at once. */
  function MoveLeft(t: Volume, r: Robot): (e: Effect)
    requires WellFormed(t) && Placed(t, r.coords)
    ensures e.pending == MoveBackward(t, r).pending
    ensures e.robot == MoveBackward(t, r).robot.(direction := TurnLeft(r.direction))
  {
    var m := Move(t, r, r.direction, -1);
    Effect(FaceLeft(m.robot), m.pending)
  }

  /** `moveRight`: the forward move, then a right turn applied at once. */
  function MoveRight(t: Volume, r: Robot): (e: Effect)
    requires WellFormed(t) && Placed(t, r.coords)
    ensures e.pending == MoveForward(t, r).pending
    ensures e.robot == MoveForward(t, r).robot.(direction := TurnRight(r.direction))
  {
    var m := Move(t, r, r.direction, 1);
    Effect(FaceRight(m.robot), m.pending)
  }

}
