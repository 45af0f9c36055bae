# Robot on a voxel terrain — Dafny model

This project models the `Robot` class of a small simulator (`robot.js`). A
single robot walks over a static 3D terrain made of labelled cells. It has a
position `[x, y, z]` with `y` vertical, a facing (север, юг, восток, запад), a
mode (ручной or автоматический), a health counter and a critical-error flag.
The model covers four parts:

- **Movement resolution** (`move` and the four moves built on it). A
  horizontal step is bounds-checked. Then a two-level collision probe runs,
  and the robot falls until something that is not air is below it. Falls of
  more than three levels cost 100 health per level. The new position is
  committed at once, or after a delay set by the surface the robot leaves
  from.
- **Facing**: the left and right turn tables.
- **Automatic mode**: one tick of the loop. Water sends the robot forward
  and acid sends it backward. Otherwise it turns towards a randomly chosen
  nearby feature and steps forward. The scan of nearby features
  (`getNearLocation`) is modelled in full.
- **Health**: the hazard drain taken on each state query, the critical-error
  drain and healing.

The model is functional. The robot is an immutable `Unit.Robot` value and the
terrain is a `seq<seq<seq<Label>>>`. Each move and the autonomy tick return a
`Movement.Effect`: the robot right after the command, plus an optional
`Commit(delay, target)`. The commit stands in for the `setTimeout` callback
that sets the position later, and `Movement.Settle` applies it. The other
commands return the new `Robot`.

Terrain lookups go through `Terrain.Sample`, which is total. Outside the
volume it returns `Other`, just as a JavaScript out-of-range index yields
`undefined`. That value is not `'воздух'` and matches no named case. The code
uses two indexing orders, and the model keeps both:

- `move` and `getCurrentLocation` read `map[x][z][y]`;
- `getNearLocation` reads `map[i][j][k]`, with `i` around x, `j` around y
  and `k` around z, and stores each hit as `[i, k, j]`.

Two preconditions stand for what the code needs in order not to throw:

- `Terrain.WellFormed`: the volume is rectangular and non-empty, and the z
  bound that `move` checks (`map[0][0].length`) is no larger than the
  extent it indexes with z (`map[0].length`).
- `Terrain.Placed`: the row `map[x][z]` the robot stands on exists, i.e. x is
  below `map.length` and z below `map[0].length`. Every move keeps this true.

`move` checks a candidate more strictly than that, with z against
`map[0][0].length` (`Terrain.InBounds`). A robot may therefore stand at a z
that `move` would refuse to step onto; `Movement.SpawnBeyondCheckedRange`
shows such a robot stepping back into range.

Details of `robot.js` the model keeps as they are:

- The right-turn table is not a rotation: it maps восток to север and запад
  to юг, so it swaps two pairs. `Unit.TurnRightIsInvolution` proves this.
  It also proves that a right turn undoes a left turn only when facing
  восток or запад.
- `moveLeft` steps with `-1`, i.e. backwards, and then turns left.
- The scan skips out-of-range and air cells only; it does not skip the
  robot's own cell or column.

## Model

| member | source | states |
|---|---|---|
| Placement.Ground | robot.js:76-79 | the descent stops at the highest non-air cell at or below its start, or at -1; every cell it passed over is air |
| Placement.ProbeStart | robot.js:69-74 | the fall starts at the current altitude if that cell is air, otherwise one level higher, and the start cell is air |
| Placement.Rest | robot.js:69-84 | the step is refused exactly when both probe cells are solid or the column is air down to the bottom; otherwise the resting altitude is at least 1, sits on a non-air cell, has only air up to the probe start, and is at most one above the current altitude |
| Placement.RestIsUnique | robot.js:76-84 | only one altitude has those resting properties, so the resting altitude is fully determined by the column |
| Movement.Target | robot.js:46-84 | a move is refused exactly when the candidate is outside the x or z bounds, both probe cells are solid, or the column is bottomless; an accepted target is the candidate column at its resting altitude |
| Movement.Move | robot.js:42-111 | a refused move changes nothing and schedules nothing; an accepted one takes drop*100 health at once when the drop exceeds 3 and otherwise none; it commits at once on ordinary ground, after 5000 ms on sand or acid and after 10000 ms on water; it never changes direction, mode or the fault flag; the robot stays within the bounds |
| Movement.SettledMove | robot.js:42-111 | once the commit has fired, the position differs from the old one only on the axis the direction names (by the step count) and in altitude, never more than one level higher; health differs only by the fall damage |
| Movement.OutOfBoundsIsNoOp | robot.js:61-67 | a candidate outside the x or z bounds leaves the robot unchanged with nothing pending |
| Movement.SpawnBeyondCheckedRange | robot.js:61-84 | a robot standing at a z inside `map[0]` but beyond `map[0][0].length` is a valid position, and a south step from it is accepted |
| Movement.MoveForward | robot.js:113-115 | a refused forward step changes nothing; an accepted one settles on the resting target one cell ahead along the facing; the facing is kept |
| Movement.MoveBackward | robot.js:117-119 | the same for one cell behind the facing |
| Movement.MoveLeft | robot.js:121-124 | the same move as `moveBackward`, followed by an immediate left turn |
| Movement.MoveRight | robot.js:126-129 | the same move as `moveForward`, followed by an immediate right turn |
| Unit.TurnLeftIsFourCycle | robot.js:131-133 | the left table is a rotation: four turns are the identity and no fewer return to the start |
| Unit.TurnRightIsInvolution | robot.js:135-137 | the right table as written: two turns are the identity, one never is, and a right turn undoes a left turn only when facing восток or запад |
| Unit.FaceLeft | robot.js:131-133 | `turnLeft` changes the facing by the left table and nothing else, so coordinates and health are untouched |
| Unit.FaceRight | robot.js:135-137 | `turnRight` changes the facing by the right table and nothing else |
| Unit.FaceLeftFourTimes | robot.js:131-133 | four `turnLeft` calls restore the robot exactly |
| Unit.FaceRightTwice | robot.js:135-137 | two `turnRight` calls restore the robot exactly |
| Unit.ChangeMode | robot.js:139-140 | the mode always flips and nothing else changes |
| Unit.ChangeModeTwice | robot.js:140 | toggling twice restores the robot |
| Unit.Spawn | robot.js:4-9 | a new robot stands at the spawn point in manual mode, facing север, with 10000 health and no fault |
| Unit.Restart | robot.js:227-235 | restart produces exactly the state of a newly constructed robot at the spawn point (robot.js:4-9): manual mode, facing север, 10000 health, no fault |
| Unit.RestartForgets | robot.js:227-235 | the restarted state does not depend on the state before it |
| Proximity.Cell | robot.js:180-187 | one cell yields a record exactly when it is inside the scan bounds and not air, stored as `[i, k, j]` |
| Proximity.Row | robot.js:179-189 | the inner loop yields exactly the hits of its k-range, in increasing k, at most one per cell |
| Proximity.Slab | robot.js:178-190 | the middle loop yields exactly the hits of its j- and k-ranges, in scan order, at most one per cell |
| Proximity.Block | robot.js:177-191 | the outer loop yields exactly the hits of its cube, in scan order, at most one per cell |
| Proximity.NearLocations | robot.js:174-193 | the scan yields exactly the in-bounds non-air cells of `map[i][j][k]` within `radius` of `[x, y, z]` on every axis, each as `[i, k, j]` with that cell's label; they come in scan order and number at most (2r+1)^3 |
| Proximity.OrderedHasNoDuplicates | robot.js:177-191 | no cell is reported twice |
| Autonomy.Tick | robot.js:142-167 | on water the tick is exactly `moveForward` and on acid exactly `moveBackward`; with nothing nearby it changes nothing; otherwise it turns towards the chosen feature (x first, then its second stored coordinate against z) and moves forward; mode and the fault flag never change |
| Autonomy.TickApproaches | robot.js:156-167 | when the robot heads for a feature it is not level with and the step is accepted, the settled position is one step closer to that feature on the axes compared |
| Terrain.SurfaceUnder | robot.js:195-197 | `getCurrentLocation` is the label of `map[x][z][y - 1]`, and `Other` (the `undefined` of the code) below the bottom or above the top of the column |
| Vitals.Query | robot.js:237-244 | a state query takes 10 health on acid, 1 on water and nothing elsewhere, and changes nothing else |
| Vitals.QueriesDrainOncePerCall | robot.js:237-244 | n queries in a row drain exactly n times the per-query loss of the surface |
| Vitals.FaultTick | robot.js:217-219 | a drain tick takes exactly 100 health and changes nothing else |
| Vitals.RaiseFault | robot.js:215-216 | `initCriticalError` sets the fault flag and changes nothing else |
| Vitals.ClearFault | robot.js:222-223 | `fixCriticalError` clears the fault flag and changes nothing else |
| Vitals.FaultTicks | robot.js:217-219 | any number of drain ticks leaves the fault flag, position, facing and mode as they were |
| Vitals.FaultLifecycle | robot.js:215-225 | raising the fault, n drain ticks and fixing it cost exactly 100n health and leave the flag cleared |
| Vitals.HealTick | robot.js:202-212 | one healing tick: at 10000 or more it stops without adding anything; otherwise it adds 10, counts the tick and stops when the count reaches 100 |
| Vitals.Heal | robot.js:199-213 | healing adds 10 per tick, for at most 100 ticks, and only while health is below 10000, so it stops once 10000 is reached; from below 10000 it never ends above 10009; from 9950 it ends at exactly 10000 after 5 increments |

## Left out

- Timers: `setTimeout`, `setInterval`, `clearInterval` and how timer callbacks interleave. Each periodic body is a single tick function (`Autonomy.Tick`, `Vitals.FaultTick`, `Vitals.HealTick`). A delayed position update is a returned `Commit`. So the model does not say which of two overlapping commits fires last.
- Vitals.Heal: runs healing to completion on its own. It does not model the fault drain or queries changing health between healing ticks.
- Timer handle bookkeeping: `restart` drops the interval handles without clearing them, and a second `initCriticalError` loses the first handle. Neither is modelled. Because of them a drain tick can run while the fault flag is false, so `Vitals.FaultTick` does not require the flag.
- `getStationTemperature`: it adds a `Math.random` floating-point jitter, so it is not modelled.
- The `getState` snapshot is not modelled: its `Date.now()` timestamp, temperature and returned record. Only its health drain is (`Vitals.Query`).
- `map.js`, which supplies the terrain and `findFirstCoordinate`, is not part of this model. The terrain is a parameter and the spawn point is an argument of `Unit.Restart`.
- The random choice of a nearby feature is the parameter `pick` of `Autonomy.Tick`. Its precondition keeps it within the scan, as `Math.floor(Math.random() * n)` does.
- The model adds no floor to health, because the code has none.
