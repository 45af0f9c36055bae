/**
 Where a robot comes to rest in a column of the terrain: a two-level
 collision probe, then a fall until something that is not air is below.
 Columns are addressed the way `move` does it, `map[x][z][y]`.
 */
module Placement {

  import opened Options
  import opened Terrain

  /** Every cell of column (x, z) from `lo` to `hi` inclusive is air. */
  predicate AllAir(t: Volume, x: int, z: int, lo: int, hi: int)
  {
    forall k :: lo <= k <= hi ==> Sample(t, x, z, k) == Air
  }

  /** Both the cell at altitude `y` and the one above it are solid: the step is blocked. */
  predicate Blocked(t: Volume, x: int, z: int, y: int)
  {
    Sample(t, x, z, y) != Air && Sample(t, x, z, y + 1) != Air
  }

  /** The altitude the fall starts from: `y` when it is free, else one above. */
  function ProbeStart(t: Volume, x: int, z: int, y: int): (s: int)
    requires !Blocked(t, x, z, y)
    ensures Sample(t, x, z, s) == Air
    ensures s == y || (s == y + 1 && Sample(t, x, z, y) != Air)
  {
    if Sample(t, x, z, y) == Air then y else y + 1
  }

  /** The descent: from `y` downwards, the first altitude that is not air,
      or -1 when the scan runs off the bottom of the column. */
  function Ground(t: Volume, x: int, z: int, y: int): (e: int)
    ensures e <= y
    ensures -1 <= y ==> -1 <= e
    ensures 0 <= e ==> Sample(t, x, z, e) != Air
    ensures AllAir(t, x, z, e + 1, y)
    decreases y
  {
    if 0 <= y && Sample(t, x, z, y) == Air then Ground(t, x, z, y - 1) else y
  }

  /** The resting altitude in column (x, z) for a robot arriving at altitude
      `y`, or None when the step is blocked or the column has no floor. */
  function Rest(t: Volume, x: int, z: int, y: int): (r: Option<int>)
    ensures r.None? <==> Blocked(t, x, z, y) || AllAir(t, x, z, 0, ProbeStart(t, x, z, y))
    ensures r.Some? ==>
      && !Blocked(t, x, z, y)
      && 1 <= r.value <= ProbeStart(t, x, z, y)
      && Sample(t, x, z, r.value - 1) != Air
      && AllAir(t, x, z, r.value, ProbeStart(t, x, z, y))
    ensures r.Some? ==> r.value <= y + 1
  {
    if Blocked(t, x, z, y) then None
    else
      var e := Ground(t, x, z, ProbeStart(t, x, z, y));
      if e + 1 == 0 then None else Some(e + 1)
  }

  /** The resting altitude is the only altitude sitting directly on top of the
      highest non-air cell under the probe start. */
  lemma RestIsUnique(t: Volume, x: int, z: int, y: int, v: int)
    requires !Blocked(t, x, z, y)
    requires 1 <= v <= ProbeStart(t, x, z, y)
    requires Sample(t, x, z, v - 1) != Air
    requires AllAir(t, x, z, v, ProbeStart(t, x, z, y))
    ensures Rest(t, x, z, y) == Some(v)
  {
  }

}
