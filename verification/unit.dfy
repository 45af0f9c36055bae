/**
 The robot's own state and the operations that touch nothing but that state:
 creation and restart, the mode toggle and the two facing tables.
 */
module Unit {

  import opened Terrain

  /** север (+z), юг (-z), восток (+x), запад (-x). */
  datatype Direction = North | South | East | West

  /** ручной / автоматический. */
  datatype Mode = Manual | Automatic

  datatype Robot = Robot(coords: Coords, mode: Mode, direction: Direction, health: int, criticalError: bool)

  const FullHealth: int := 10000

  /** The state a freshly constructed robot has, standing at `at`. */
  function Spawn(at: Coords): (r: Robot)
    ensures r.coords == at && r.mode == Manual && r.direction == North
    ensures r.health == FullHealth && !r.criticalError
  {
    Robot(at, Manual, North, FullHealth, false)
  }

  /** `restart`: every field goes back to its initial value; the spawn point
      is a parameter because the lookup that finds it is outside the model. */
  function Restart(r: Robot, at: Coords): (r': Robot)
    ensures r' == Spawn(at)
  {
    Robot(at, Manual, North, FullHealth, false)
  }

  /** Restart forgets everything about the robot it is applied to. */
  lemma RestartForgets(r1: Robot, r2: Robot, at: Coords)
    ensures Restart(r1, at) == Restart(r2, at)
  {
  }

  /** `changeMode`: the mode flips and nothing else changes. */
  function ChangeMode(r: Robot): (r': Robot)
    ensures r'.mode != r.mode
    ensures r' == r.(mode := r'.mode)
  {
    r.(mode := if r.mode == Manual then Automatic else Manual)
  }

  lemma ChangeModeTwice(r: Robot)
    ensures ChangeMode(ChangeMode(r)) == r
  {
  }

  /** The left-turn table. */
  function TurnLeft(d: Direction): Direction
  {
    match d
    case North => West
    case South => East
    case East => North
    case West => South
  }

  /** The right-turn table, as the robot has it: восток goes to север and
      запад to юг, so it swaps two pairs instead of rotating. */
  function TurnRight(d: Direction): Direction
  {
    match d
    case North => East
    case South => West
    case East => North
    case West => South
  }

  /** The left table is a rotation: no direction comes back before the fourth turn. */
  lemma TurnLeftIsFourCycle(d: Direction)
    ensures TurnLeft(TurnLeft(TurnLeft(TurnLeft(d)))) == d
    ensures TurnLeft(d) != d && TurnLeft(TurnLeft(d)) != d && TurnLeft(TurnLeft(TurnLeft(d))) != d
  {
  }

  /** The right table undoes itself after two turns, and undoes a left turn
      only when facing восток or запад. */
  lemma TurnRightIsInvolution(d: Direction)
    ensures TurnRight(TurnRight(d)) == d
    ensures TurnRight(d) != d
    ensures TurnRight(TurnLeft(d)) == d <==> d == East || d == West
  {
  }

  /** `turnLeft`: only the facing changes. */
  function FaceLeft(r: Robot): (r': Robot)
    ensures r' == r.(direction := r'.direction)
    ensures r'.direction == TurnLeft(r.direction)
  {
    r.(direction := TurnLeft(r.direction))
  }

  /** `turnRight`: only the facing changes. */
  function FaceRight(r: Robot): (r': Robot)
    ensures r' == r.(direction := r'.direction)
    ensures r'.direction == TurnRight(r.direction)
  {
    r.(direction := TurnRight(r.direction))
  }

  /** Four left turns bring the robot back to the state it started in. */
  lemma FaceLeftFourTimes(r: Robot)
    ensures FaceLeft(FaceLeft(FaceLeft(FaceLeft(r)))) == r
  {
    TurnLeftIsFourCycle(r.direction);
  }

  /** Two right turns bring the robot back to the state it started in. */
  lemma FaceRightTwice(r: Robot)
    ensures FaceRight(FaceRight(r)) == r
  {
    TurnRightIsInvolution(r.direction);
  }

}
