/** The CTM environment: four corner tensors and four edge tensors per site,
    and the refreshes of it that the full update asks for. */
module Environment {
  import opened Tensors
  import opened Lattices

  datatype Corner = C1 | C2 | C3 | C4

  /** The side of a site an edge tensor sits on; `SideOfLeg` numbers them like the legs. */
  datatype Side = Left | Top | Right | Bottom

  datatype Env = Env(
    c1: seq<Tensor>, c2: seq<Tensor>, c3: seq<Tensor>, c4: seq<Tensor>,
    eTt: seq<Tensor>, eTr: seq<Tensor>, eTb: seq<Tensor>, eTl: seq<Tensor>)

  predicate EnvSized(env: Env, n: int)
  {
    && |env.c1| == n && |env.c2| == n && |env.c3| == n && |env.c4| == n
    && |env.eTt| == n && |env.eTr| == n && |env.eTb| == n && |env.eTl| == n
  }

  function SideOfLeg(leg: int): (s: Side)
    requires 0 <= leg < NLeg
    ensures leg == LegOfSide(s)
  {
    match leg
    case 0 => Left
    case 1 => Top
    case 2 => Right
    case 3 => Bottom
  }

  function LegOfSide(s: Side): (leg: int)
    ensures 0 <= leg < NLeg
  {
    match s
    case Left => 0
    case Top => 1
    case Right => 2
    case Bottom => 3
  }

  function CornerAt(env: Env, c: Corner, site: int): Tensor
    requires EnvSized(env, |env.c1|) && 0 <= site < |env.c1|
  {
    match c
    case C1 => env.c1[site]
    case C2 => env.c2[site]
    case C3 => env.c3[site]
    case C4 => env.c4[site]
  }

  function EdgeAt(env: Env, s: Side, site: int): Tensor
    requires EnvSized(env, |env.c1|) && 0 <= site < |env.c1|
  {
    match s
    case Top => env.eTt[site]
    case Right => env.eTr[site]
    case Bottom => env.eTb[site]
    case Left => env.eTl[site]
  }

  // ---------------------------------------------------------------------------
  // Refreshing the environment after a full-update bond
  // ---------------------------------------------------------------------------

  datatype Direction = LeftMove | RightMove | TopMove | BottomMove

  /** A full four-direction CTM pass, or one directional move restricted to
      one column (left/right moves) or one row (top/bottom moves). */
  datatype Refresh = FullCTM | Move(dir: Direction, line: int)

  /** The refreshes after updating the bond from `source` to `target`: with the
      fast update, the two columns (horizontal bond) or the two rows (vertical
      bond) holding the sites; otherwise one full CTM pass. */
  function BondRefreshes(fast: bool, horizontal: bool, source: int, target: int, lx: int): seq<Refresh>
    requires lx > 0
  {
    if fast then
      if horizontal then [Move(LeftMove, source % lx), Move(RightMove, target % lx)]
      else [Move(TopMove, source / lx), Move(BottomMove, target / lx)]
    else [FullCTM]
  }

  /** Every refresh the fast update issues names a column in [0, LX) or a row
      index that lies in the unit cell's row range when sites are numbered
      row by row (`site = x + LX * y`). */
  lemma BondRefreshLines(fast: bool, horizontal: bool, source: int, target: int, lx: int, ly: int)
    requires lx > 0 && ly > 0
    requires 0 <= source < lx * ly && 0 <= target < lx * ly
    ensures forall r :: r in BondRefreshes(fast, horizontal, source, target, lx) && r.Move? && horizontal ==> 0 <= r.line < lx
    ensures forall r :: r in BondRefreshes(fast, horizontal, source, target, lx) && r.Move? && !horizontal ==> 0 <= r.line < ly
  {
    if fast && !horizontal {
      DivBelow(source, lx, ly);
      DivBelow(target, lx, ly);
    }
  }

  /** Apply a list of refreshes with the given CTM pass and directional move.
      Both stand for numerical code this model does not interpret. */
  function ApplyRefreshes(env: Env, tn: seq<Tensor>, rs: seq<Refresh>,
                          ctm: (Env, seq<Tensor>) -> Env,
                          move: (Direction, int, Env, seq<Tensor>) -> Env): (e: Env)
    ensures rs == [] ==> e == env
    decreases |rs|
  {
    if rs == [] then env
    else
      var env' := match rs[0]
                  case FullCTM => ctm(env, tn)
                  case Move(d, line) => move(d, line, env, tn);
      ApplyRefreshes(env', tn, rs[1..], ctm, move)
  }
}
