/**
 The terrain volume the robot walks on. The robot only reads it, so it is a
 plain value: a three-level nested sequence of labels. The robot code indexes
 it in two different orders, and both are reproduced by the callers of
 `Sample`, which takes the three indices in the order they are written.
 */
module Terrain {

  /** The labels the robot reacts to: воздух, почва, вода, кислотная
      поверхность, песок. Every other label, and the `undefined` a JavaScript
      array yields outside its range, is `Other`: in every comparison the robot
      makes, the two behave alike (they are not air and match no named case). */
  datatype Label = Air | Soil | Water | Acid | Sand | Other

  type Volume = seq<seq<seq<Label>>>

  /** A position `[x, y, z]`: `x` east, `y` vertical, `z` north. */
  datatype Coords = Coords(x: int, y: int, z: int)

  /** A volume on which the robot's lookups never hit a missing row: it is
      non-empty and rectangular, and the z bound the robot checks (the length
      of the innermost sequence) is no larger than the middle extent, which the
      robot indexes with z. */
  predicate WellFormed(t: Volume)
  {
    && 0 < |t| && 0 < |t[0]|
    && |t[0][0]| <= |t[0]|
    && (forall i :: 0 <= i < |t| ==> |t[i]| == |t[0]|)
    && (forall i, j :: 0 <= i < |t| && 0 <= j < |t[i]| ==> |t[i][j]| == |t[0][0]|)
  }

  /** `t[a][b][c]`, or `Other` outside the volume. */
  function Sample(t: Volume, a: int, b: int, c: int): Label
  {
    if 0 <= a < |t| && 0 <= b < |t[a]| && 0 <= c < |t[a][b]| then t[a][b][c] else Other
  }

  /** The horizontal bounds `move` checks a candidate against: x against
      `map.length` and z against `map[0][0].length`. */
  predicate InBounds(t: Volume, c: Coords)
  {
    0 <= c.x < |t| && 0 < |t[0]| && 0 <= c.z < |t[0][0]|
  }

  /** The robot stands on an existing row `map[x][z]`, which is what
      `getCurrentLocation` needs in order not to throw. */
  predicate Placed(t: Volume, c: Coords)
  {
    0 <= c.x < |t| && 0 <= c.z < |t[0]|
  }

  /** On a well-formed volume every candidate `move` accepts is a position
      the robot can stand on. */
  lemma InBoundsIsPlaced(t: Volume, c: Coords)
    requires WellFormed(t) && InBounds(t, c)
    ensures Placed(t, c)
  {
  }

  /** The label of the cell the robot stands on: `map[x][z][y - 1]`. */
  function SurfaceUnder(t: Volume, c: Coords): (l: Label)
    ensures c.y < 1 ==> l == Other
    ensures WellFormed(t) && Placed(t, c) && 1 <= c.y <= |t[0][0]| ==> l == t[c.x][c.z][c.y - 1]
    ensures WellFormed(t) && Placed(t, c) && |t[0][0]| < c.y ==> l == Other
  {
    Sample(t, c.x, c.z, c.y - 1)
  }

}
