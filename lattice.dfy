/** The unit cell. Its connectivity (`neighbor`, `other`, `index`, `x`, `y`)
    is defined elsewhere in the program; here it is carried as functions whose
    only known property is that they return in-range values, plus, where a
    member asks for it, the row-by-row numbering of `RowMajor`.
    Legs are numbered 0 = left (-x), 1 = top (+y), 2 = right (+x), 3 = bottom (-y). */
module Lattices {

  datatype Lattice = Lattice(
    LX: int,
    LY: int,
    nUnit: int,
    physicalDims: seq<int>,
    virtualDims: seq<seq<int>>,
    neighbor: (int, int) -> int,     // (site, leg) -> site across that leg
    other: (int, int, int) -> int,   // (site, dx, dy) -> site displaced by (dx, dy)
    index: (int, int) -> int,        // (x, y) -> site
    x: int -> int,                   // site -> column
    y: int -> int)                   // site -> row

  const NLeg: int := 4

  predicate Site(lat: Lattice, s: int)
  {
    0 <= s < lat.nUnit
  }

  /** The dimensions are positive, every site has four virtual legs, and the
      lookup functions stay inside the unit cell. */
  ghost predicate Valid(lat: Lattice)
  {
    && lat.LX > 0 && lat.LY > 0 && lat.nUnit > 0
    && |lat.physicalDims| == lat.nUnit && |lat.virtualDims| == lat.nUnit
    && (forall i :: 0 <= i < lat.nUnit ==> lat.physicalDims[i] > 0)
    && (forall i :: 0 <= i < lat.nUnit ==> |lat.virtualDims[i]| == NLeg)
    && (forall i, j :: 0 <= i < lat.nUnit && 0 <= j < NLeg && j < |lat.virtualDims[i]| ==> lat.virtualDims[i][j] > 0)
    && (forall s, leg :: 0 <= s < lat.nUnit && 0 <= leg < NLeg ==> 0 <= lat.neighbor(s, leg) < lat.nUnit)
    && (forall s, dx, dy :: 0 <= s < lat.nUnit ==> 0 <= lat.other(s, dx, dy) < lat.nUnit)
    && (forall cx, cy :: 0 <= cx < lat.LX && 0 <= cy < lat.LY ==> 0 <= lat.index(cx, cy) < lat.nUnit)
    && (forall s :: 0 <= s < lat.nUnit ==> 0 <= lat.x(s) < lat.LX && 0 <= lat.y(s) < lat.LY)
  }

  /** Sites are numbered row by row: the cell is LX x LY, and site s sits in
      column s % LX of row s / LX. */
  ghost predicate RowMajor(lat: Lattice)
  {
    && lat.nUnit == lat.LX * lat.LY
    && forall s :: 0 <= s < lat.nUnit ==> lat.x(s) == s % lat.LX && lat.y(s) == s / lat.LX
  }

  /** The leg of the target site that faces back to the source: `(leg + 2) % 4`. */
  function OppositeLeg(leg: int): (r: int)
    requires 0 <= leg < NLeg
    ensures 0 <= r < NLeg && r != leg
    ensures r == leg + 2 || r == leg - 2
  {
    (leg + 2) % 4
  }

  /** Taking the opposite leg twice gives back the leg. */
  lemma OppositeLegInvolution(leg: int)
    requires 0 <= leg < NLeg
    ensures OppositeLeg(OppositeLeg(leg)) == leg
  {
  }

  /** A bond along x (legs 0 and 2) rather than along y (legs 1 and 3). */
  predicate IsHorizontal(leg: int)
  {
    leg == 0 || leg == 2
  }

  lemma OppositeLegKeepsAxis(leg: int)
    requires 0 <= leg < NLeg
    ensures IsHorizontal(OppositeLeg(leg)) <==> IsHorizontal(leg)
  {
  }
}
