/**
 `getNearLocation`: a scan of the cube of cells around the robot. The scan
 indexes the volume as `map[i][j][k]` with `i` around x, `j` around y and
 `k` around z, and stores each hit as `[i, k, j]`; both are reproduced here.
 Cells are visited with `i` outermost and `k` innermost, so the hits come out
 in that lexicographic order.
 */
module Proximity {

  import opened Terrain

  /** One entry of the scan: stored coordinates and the cell's label. */
  datatype Feature = Feature(coords: Coords, location: Label)

  /** The scan's bounds test, checked against `map`, `map[0]` and `map[0][0]`. */
  predicate InScan(t: Volume, i: int, j: int, k: int)
  {
    0 <= i && 0 <= j && 0 <= k && i < |t| && j < |t[0]| && k < |t[0][0]|
  }

  /** `f` is what the scan records for a non-air cell `map[i][j][k]` within
      bounds: coordinates `[i, k, j]` and that cell's label. */
  predicate Hit(t: Volume, f: Feature)
  {
    var i, j, k := f.coords.x, f.coords.z, f.coords.y;
    InScan(t, i, j, k) && f.location == Sample(t, i, j, k) && f.location != Air
  }

  /** Strict scan order: by `i`, then `j`, then `k`. */
  predicate Precedes(f: Feature, g: Feature)
  {
    || f.coords.x < g.coords.x
    || (f.coords.x == g.coords.x && f.coords.z < g.coords.z)
    || (f.coords.x == g.coords.x && f.coords.z == g.coords.z && f.coords.y < g.coords.y)
  }

  predicate Ordered(fs: seq<Feature>)
  {
    forall a, b :: 0 <= a < b < |fs| ==> Precedes(fs[a], fs[b])
  }

  /** Number of integers in `[lo, hi]`. */
  function Span(lo: int, hi: int): nat
  {
    if hi < lo then 0 else hi - lo + 1
  }

  lemma OrderedAppend(xs: seq<Feature>, ys: seq<Feature>)
    requires Ordered(xs) && Ordered(ys)
    requires forall f, g :: f in xs && g in ys ==> Precedes(f, g)
    ensures Ordered(xs + ys)
  {
    forall a, b | 0 <= a < b < |xs + ys|
      ensures Precedes((xs + ys)[a], (xs + ys)[b])
    {
      if b < |xs| {
        assert (xs + ys)[a] == xs[a] && (xs + ys)[b] == xs[b];
      } else if |xs| <= a {
        assert (xs + ys)[a] == ys[a - |xs|] && (xs + ys)[b] == ys[b - |xs|];
      } else {
        assert (xs + ys)[a] in xs && (xs + ys)[b] in ys;
      }
    }
  }

  lemma SpanStep(lo: int, hi: int, w: nat)
    requires lo <= hi
    ensures Span(lo, hi) * w == w + Span(lo + 1, hi) * w
  {
    assert Span(lo, hi) == Span(lo + 1, hi) + 1;
  }

  /** The record for the single cell `map[i][j][k]`, if it is a hit. */
  function Cell(t: Volume, i: int, j: int, k: int): (fs: seq<Feature>)
    ensures |fs| <= 1
    ensures forall f :: f in fs <==> Hit(t, f) && f.coords == Coords(i, k, j)
  {
    if InScan(t, i, j, k) && Sample(t, i, j, k) != Air
    then [Feature(Coords(i, k, j), Sample(t, i, j, k))]
    else []
  }

  /** The innermost loop: `k` from `k` to `hi`. */
  function Row(t: Volume, i: int, j: int, k: int, hi: int): (fs: seq<Feature>)
    ensures |fs| <= Span(k, hi)
    ensures forall f :: f in fs <==> Hit(t, f) && f.coords.x == i && f.coords.z == j && k <= f.coords.y <= hi
    ensures Ordered(fs)
    decreases hi - k
  {
    if hi < k then []
    else
      var here, rest := Cell(t, i, j, k), Row(t, i, j, k + 1, hi);
      OrderedAppend(here, rest);
      here + rest
  }

  /** The middle loop: `j` from `j` to `jhi`, each with a full row of `k`. */
  function Slab(t: Volume, i: int, j: int, jhi: int, klo: int, khi: int): (fs: seq<Feature>)
    ensures |fs| <= Span(j, jhi) * Span(klo, khi)
    ensures forall f :: f in fs <==>
      Hit(t, f) && f.coords.x == i && j <= f.coords.z <= jhi && klo <= f.coords.y <= khi
    ensures Ordered(fs)
    decreases jhi - j
  {
    if jhi < j then []
    else
      var here, rest := Row(t, i, j, klo, khi), Slab(t, i, j + 1, jhi, klo, khi);
      OrderedAppend(here, rest);
      SpanStep(j, jhi, Span(klo, khi));
      here + rest
  }

  /** The outer loop: `i` from `i` to `ihi`. */
  function Block(t: Volume, i: int, ihi: int, jlo: int, jhi: int, klo: int, khi: int): (fs: seq<Feature>)
    ensures |fs| <= Span(i, ihi) * (Span(jlo, jhi) * Span(klo, khi))
    ensures forall f :: f in fs <==>
      Hit(t, f) && i <= f.coords.x <= ihi && jlo <= f.coords.z <= jhi && klo <= f.coords.y <= khi
    ensures Ordered(fs)
    decreases ihi - i
  {
    if ihi < i then []
    else
      var here, rest := Slab(t, i, jlo, jhi, klo, khi), Block(t, i + 1, ihi, jlo, jhi, klo, khi);
      OrderedAppend(here, rest);
      SpanStep(i, ihi, Span(jlo, jhi) * Span(klo, khi));
      here + rest
  }

  /** `getNearLocation(radius)` around position `c`. */
  function NearLocations(t: Volume, c: Coords, radius: nat): (fs: seq<Feature>)
    requires WellFormed(t)
    ensures forall f :: f in fs <==>
      && Hit(t, f)
      && c.x - radius <= f.coords.x <= c.x + radius
      && c.y - radius <= f.coords.z <= c.y + radius
      && c.z - radius <= f.coords.y <= c.z + radius
    ensures forall f :: f in fs ==>
      && 0 <= f.coords.x < |t| && 0 <= f.coords.z < |t[f.coords.x]| && 0 <= f.coords.y < |t[f.coords.x][f.coords.z]|
      && f.location == t[f.coords.x][f.coords.z][f.coords.y]
    ensures |fs| <= (2 * radius + 1) * ((2 * radius + 1) * (2 * radius + 1))
    ensures Ordered(fs)
  {
    var width := 2 * radius + 1;
    assert Span(c.x - radius, c.x + radius) == width;
    assert Span(c.y - radius, c.y + radius) == width;
    assert Span(c.z - radius, c.z + radius) == width;
    Block(t, c.x - radius, c.x + radius, c.y - radius, c.y + radius, c.z - radius, c.z + radius)
  }

  /** An ordered scan never reports the same cell twice. */
  lemma OrderedHasNoDuplicates(fs: seq<Feature>, a: int, b: int)
    requires Ordered(fs)
    requires 0 <= a < b < |fs|
    ensures fs[a].coords != fs[b].coords
  {
  }

}
