/** The orientation table of the full update: for each of the four bond
    directions, which corner and edge tensors, taken from the source or the
    target site, are handed to the one bond kernel, and in which order. */
module FullUpdateTable {
  import opened Lattices
  import opened Environment

  datatype Role = Source | Target

  datatype CornerArg = CornerArg(corner: Corner, role: Role)
  datatype EdgeArg = EdgeArg(side: Side, role: Role)

  /** The four corner arguments and six edge arguments, in the kernel's order. */
  datatype Orientation = Orientation(corners: seq<CornerArg>, edges: seq<EdgeArg>)

  function OrientationOf(leg: int): (o: Orientation)
    requires 0 <= leg < NLeg
    ensures |o.corners| == 4 && |o.edges| == 6
  {
    match leg
    case 0 =>
      Orientation(
        [CornerArg(C4, Source), CornerArg(C2, Target), CornerArg(C1, Target), CornerArg(C3, Source)],
        [EdgeArg(Bottom, Source), EdgeArg(Bottom, Target), EdgeArg(Left, Target),
         EdgeArg(Top, Target), EdgeArg(Top, Source), EdgeArg(Right, Source)])
    case 1 =>
      Orientation(
        [CornerArg(C4, Source), CornerArg(C1, Target), CornerArg(C2, Target), CornerArg(C3, Source)],
        [EdgeArg(Left, Source), EdgeArg(Left, Target), EdgeArg(Top, Target),
         EdgeArg(Right, Target), EdgeArg(Right, Source), EdgeArg(Bottom, Source)])
    case 2 =>
      Orientation(
        [CornerArg(C1, Source), CornerArg(C2, Target), CornerArg(C3, Target), CornerArg(C4, Source)],
        [EdgeArg(Top, Source), EdgeArg(Top, Target), EdgeArg(Right, Target),
         EdgeArg(Bottom, Target), EdgeArg(Bottom, Source), EdgeArg(Left, Source)])
    case 3 =>
      Orientation(
        [CornerArg(C2, Source), CornerArg(C3, Target), CornerArg(C4, Target), CornerArg(C1, Source)],
        [EdgeArg(Right, Source), EdgeArg(Right, Target), EdgeArg(Bottom, Target),
         EdgeArg(Left, Target), EdgeArg(Left, Source), EdgeArg(Top, Source)])
  }

  function CornersFrom(o: Orientation, role: Role): set<Corner>
  {
    set k | 0 <= k < |o.corners| && o.corners[k].role == role :: o.corners[k].corner
  }

  function SidesFrom(o: Orientation, role: Role): set<Side>
  {
    set k | 0 <= k < |o.edges| && o.edges[k].role == role :: o.edges[k].side
  }

  /** The roles sit at fixed positions for every direction: corners
      (source, target, target, source), edges (source, target, target, target,
      source, source). */
  lemma RolesByPosition(leg: int)
    requires 0 <= leg < NLeg
    ensures var o := OrientationOf(leg);
      && (forall k :: 0 <= k < 4 ==> (o.corners[k].role == Source <==> k == 0 || k == 3))
      && (forall k :: 0 <= k < 6 ==> (o.edges[k].role == Source <==> k == 0 || k == 4 || k == 5))
  {
  }

  /** The four corners are pairwise different and together are C1..C4, so
      each appears once; the source and the target site
      each give two of them. */
  lemma CornersArePermutation(leg: int)
    requires 0 <= leg < NLeg
    ensures var o := OrientationOf(leg);
      && (forall i, j :: 0 <= i < j < 4 ==> o.corners[i].corner != o.corners[j].corner)
      && {o.corners[0].corner, o.corners[1].corner, o.corners[2].corner, o.corners[3].corner} == {C1, C2, C3, C4}
      && |CornersFrom(o, Source)| == 2 && |CornersFrom(o, Target)| == 2
      && CornersFrom(o, Source) !! CornersFrom(o, Target)
  {
    var o := OrientationOf(leg);
    RolesByPosition(leg);
    assert CornersFrom(o, Source) == {o.corners[0].corner, o.corners[3].corner};
    assert CornersFrom(o, Target) == {o.corners[1].corner, o.corners[2].corner};
  }

  /** Three edges come from each site. The source gives every side except the
      one facing the target (side `leg`), so it gives side `(leg + 2) % 4`;
      the target gives every side except the one facing back (side
      `(leg + 2) % 4`), so it gives side `leg`. */
  lemma EdgesBySite(leg: int)
    requires 0 <= leg < NLeg
    ensures var o := OrientationOf(leg);
      && SidesFrom(o, Source) == {Left, Top, Right, Bottom} - {SideOfLeg(leg)}
      && SidesFrom(o, Target) == {Left, Top, Right, Bottom} - {SideOfLeg(OppositeLeg(leg))}
      && SideOfLeg(leg) in SidesFrom(o, Target)
      && SideOfLeg(OppositeLeg(leg)) in SidesFrom(o, Source)
  {
    var o := OrientationOf(leg);
    RolesByPosition(leg);
    assert SidesFrom(o, Source) == {o.edges[0].side, o.edges[4].side, o.edges[5].side};
    assert SidesFrom(o, Target) == {o.edges[1].side, o.edges[2].side, o.edges[3].side};
  }
}
