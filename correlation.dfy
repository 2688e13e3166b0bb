/** Correlation functions <A_left B_right> along the x and y axes: which
    (site, operator, distance, operator) combinations are measured, where the
    right site lies, and the order in which the records are emitted. The
    transfer-matrix contractions are parameters. */
module Correlations {
  import opened Tensors
  import opened Lattices
  import opened Environment
  import opened Operators

  /** One measured correlation: the left and right sites, how many times the
      right site wrapped around the unit cell along x and along y, the two
      one-site operator groups, and the value (before dividing by the norm). */
  datatype Correlation = Correlation(
    leftIndex: int, rightIndex: int,
    offsetX: int, offsetY: int,
    leftOp: int, rightOp: int,
    value: Observed)

  /** The largest distance and the (left group, right group) pairs to measure. */
  datatype CorrelationParameter = CorrelationParameter(rMax: int, operators: seq<(int, int)>)

  /** The default parameter measures nothing: r_max is 0. */
  const DefaultParameter: CorrelationParameter := CorrelationParameter(0, [])

  // ---------------------------------------------------------------------------
  // r_ops: for each left group, the right groups paired with it
  // ---------------------------------------------------------------------------

  /** The right groups paired with left group g, in the order of the pairs. */
  function RightOpsOf(pairs: seq<(int, int)>, g: int): (r: seq<int>)
    ensures |r| <= |pairs|
    decreases |pairs|
  {
    if |pairs| == 0 then []
    else
      var last := pairs[|pairs| - 1];
      RightOpsOf(pairs[..|pairs| - 1], g) + (if last.0 == g then [last.1] else [])
  }

  /** h is among the right groups of g exactly when (g, h) is one of the pairs. */
  lemma {:induction false} RightOpsMembers(pairs: seq<(int, int)>, g: int, h: int)
    ensures h in RightOpsOf(pairs, g) <==> (g, h) in pairs
    decreases |pairs|
  {
    if |pairs| > 0 {
      var init := pairs[..|pairs| - 1];
      RightOpsMembers(init, g, h);
      assert pairs == init + [pairs[|pairs| - 1]];
    }
  }

  predicate PairsFit(pairs: seq<(int, int)>, nlops: int)
  {
    forall i :: 0 <= i < |pairs| ==> 0 <= pairs[i].0 < nlops && 0 <= pairs[i].1 < nlops
  }

  /** Build r_ops by appending each pair's right group to its left group's list. */
  method BuildRightOps(pairs: seq<(int, int)>, nlops: nat) returns (rops: seq<seq<int>>)
    requires PairsFit(pairs, nlops)
    ensures |rops| == nlops
    ensures forall g :: 0 <= g < nlops ==> rops[g] == RightOpsOf(pairs, g)
  {
    rops := seq(nlops, _ => []);
    for i := 0 to |pairs|
      invariant |rops| == nlops
      invariant forall g :: 0 <= g < nlops ==> rops[g] == RightOpsOf(pairs[..i], g)
    {
      var (l, r) := pairs[i];
      rops := rops[l := rops[l] + [r]];
      assert pairs[..i + 1][..i] == pairs[..i];
    }
    assert pairs[..|pairs|] == pairs;
  }

  // ---------------------------------------------------------------------------
  // Where the right site lies
  // ---------------------------------------------------------------------------

  /** The left site's coordinate along the measuring axis, and the cell's length there. */
  function Coord(lat: Lattice, vertical: bool, s: int): int
  {
    if vertical then lat.y(s) else lat.x(s)
  }

  function Length(lat: Lattice, vertical: bool): int
  {
    if vertical then lat.LY else lat.LX
  }

  /** The right site's coordinate r + 1 steps from the left site, inside the cell,
      and how many times that walk wrapped around the cell. Both operands are
      non-negative, so the program's truncating % and / agree with these. */
  function RightCoord(lat: Lattice, vertical: bool, left: int, r: int): int
    requires Length(lat, vertical) > 0
  {
    (Coord(lat, vertical, left) + r + 1) % Length(lat, vertical)
  }

  function Wraps(lat: Lattice, vertical: bool, left: int, r: int): int
    requires Length(lat, vertical) > 0
  {
    (Coord(lat, vertical, left) + r + 1) / Length(lat, vertical)
  }

  /** The walk of r + 1 steps is `Wraps` whole cells plus the right coordinate,
      and the right coordinate lies in the cell. */
  lemma WalkDecomposes(lat: Lattice, vertical: bool, left: int, r: int)
    requires Valid(lat) && 0 <= left < lat.nUnit && r >= 0
    ensures 0 <= RightCoord(lat, vertical, left, r) < Length(lat, vertical)
    ensures Wraps(lat, vertical, left, r) >= 0
    ensures RightCoord(lat, vertical, left, r) + Length(lat, vertical) * Wraps(lat, vertical, left, r)
         == Coord(lat, vertical, left) + r + 1
  {
    var n, d := Coord(lat, vertical, left) + r + 1, Length(lat, vertical);
    assert n == d * (n / d) + n % d;
    if n / d < 0 {
      MulMonotone(d, n / d, -1);
    }
  }

  /** The site r + 1 steps to the right of (vertical: above) `left`, wrapping around. */
  function RightSite(lat: Lattice, vertical: bool, left: int, r: int): (s: int)
    requires Length(lat, vertical) > 0
    ensures Valid(lat) && 0 <= left < lat.nUnit ==> 0 <= s < lat.nUnit
  {
    if vertical then lat.index(lat.x(left), RightCoord(lat, vertical, left, r))
    else lat.index(RightCoord(lat, vertical, left, r), lat.y(left))
  }

  // ---------------------------------------------------------------------------
  // The numerical kernels and what they are handed
  // ---------------------------------------------------------------------------

  /** The tensors of one column (horizontal) or row (vertical) that start or
      finish a transfer-matrix product: two corners, three edges, the site. */
  datatype Column = Column(cornerA: Tensor, cornerB: Tensor, edgeA: Tensor, edgeB: Tensor, edgeC: Tensor, site: Tensor)

  /** The tensors one transfer step absorbs: two edges and the site. */
  datatype Pass = Pass(edgeA: Tensor, edgeB: Tensor, site: Tensor)

  /** StartCorrelation, FinishCorrelation, Transfer, and the leg permutation
      (3, 0, 1, 2, 4) that turns a site tensor for the vertical direction. */
  datatype CorrKernels = CorrKernels(
    start: (Column, Tensor) -> Tensor,
    finish: (Tensor, Column, Tensor) -> Value,
    transfer: (Tensor, Pass) -> Tensor,
    rotate: Tensor -> Tensor)

  datatype CorrCtx = CorrCtx(
    lat: Lattice, env: Env, tn: seq<Tensor>, ids: seq<Tensor>,
    onesite: seq<Operator>, table: seq<seq<int>>, nlops: int,
    param: CorrelationParameter, k: CorrKernels)

  /** The sizes agree, the operator table holds -1 or an operator index, and
      every requested pair names two existing groups. */
  ghost predicate CorrCtxValid(c: CorrCtx)
  {
    && Valid(c.lat)
    && |c.tn| == c.lat.nUnit && |c.ids| == c.lat.nUnit && EnvSized(c.env, c.lat.nUnit)
    && c.nlops >= 0
    && TableShaped(c.table, c.lat.nUnit, c.nlops)
    && (forall s, g :: 0 <= s < c.lat.nUnit && 0 <= g < c.nlops ==> -1 <= c.table[s][g] < |c.onesite|)
    && PairsFit(c.param.operators, c.nlops)
  }

  /** The left end: C1, C4, eTt, eTb, eTl and the site (horizontal), or C4,
      C3, eTl, eTr, eTb and the turned site (vertical). */
  function StartColumn(c: CorrCtx, vertical: bool, s: int): Column
    requires CorrCtxValid(c) && 0 <= s < c.lat.nUnit
  {
    var e := c.env;
    if vertical then Column(e.c4[s], e.c3[s], e.eTl[s], e.eTr[s], e.eTb[s], c.k.rotate(c.tn[s]))
    else Column(e.c1[s], e.c4[s], e.eTt[s], e.eTb[s], e.eTl[s], c.tn[s])
  }

  /** The right end: C2, C3, eTt, eTr, eTb and the site (horizontal), or C1,
      C2, eTl, eTt, eTr and the turned site (vertical). */
  function FinishColumn(c: CorrCtx, vertical: bool, s: int): Column
    requires CorrCtxValid(c) && 0 <= s < c.lat.nUnit
  {
    var e := c.env;
    if vertical then Column(e.c1[s], e.c2[s], e.eTl[s], e.eTt[s], e.eTr[s], c.k.rotate(c.tn[s]))
    else Column(e.c2[s], e.c3[s], e.eTt[s], e.eTr[s], e.eTb[s], c.tn[s])
  }

  /** One transfer step: eTt, eTb and the site, or eTl, eTr and the turned site. */
  function PassOf(c: CorrCtx, vertical: bool, s: int): Pass
    requires CorrCtxValid(c) && 0 <= s < c.lat.nUnit
  {
    var e := c.env;
    if vertical then Pass(e.eTl[s], e.eTr[s], c.k.rotate(c.tn[s]))
    else Pass(e.eTt[s], e.eTb[s], c.tn[s])
  }

  /** The carried tensor at distance r: started at the left site with `op`,
      then passed through the right sites at distances 0 .. r - 1. */
  function Carried(c: CorrCtx, vertical: bool, left: int, op: Tensor, r: nat): Tensor
    requires CorrCtxValid(c) && 0 <= left < c.lat.nUnit
    decreases r
  {
    if r == 0 then c.k.start(StartColumn(c, vertical, left), op)
    else
      c.k.transfer(Carried(c, vertical, left, op, r - 1), PassOf(c, vertical, RightSite(c.lat, vertical, left, r - 1)))
  }

  // ---------------------------------------------------------------------------
  // The records
  // ---------------------------------------------------------------------------

  function ROps(c: CorrCtx, g: int): seq<int>
  {
    RightOpsOf(c.param.operators, g)
  }

  /** The number of distances measured: r_max, or none when r_max <= 0. */
  function Distances(c: CorrCtx): nat
  {
    if c.param.rMax > 0 then c.param.rMax else 0
  }

  /** What makes a record: a left group assigned at the left site, a distance
      below r_max, and a right group paired with the left one and assigned at
      the right site. */
  ghost predicate Emitted(c: CorrCtx, vertical: bool, left: int, ilop: int, r: int, rilop: int)
    requires CorrCtxValid(c)
  {
    && 0 <= left < c.lat.nUnit && 0 <= ilop < c.nlops
    && c.table[left][ilop] >= 0
    && 0 <= r < Distances(c)
    && (ilop, rilop) in c.param.operators
    && 0 <= rilop < c.nlops
    && c.table[RightSite(c.lat, vertical, left, r)][rilop] >= 0
  }

  /** The record for left site `left` with group `ilop`, distance r and right
      group `rilop`: the left operator carried r + 1 steps and closed with the
      right operator, over the same product with identities as the norm. */
  function Rec(c: CorrCtx, vertical: bool, left: int, ilop: int, r: nat, rilop: int): (rec: Correlation)
    requires CorrCtxValid(c) && 0 <= left < c.lat.nUnit && 0 <= ilop < c.nlops && 0 <= rilop < c.nlops
    requires c.table[left][ilop] >= 0
    requires c.table[RightSite(c.lat, vertical, left, r)][rilop] >= 0
    ensures rec.leftIndex == left && rec.leftOp == ilop && rec.rightOp == rilop
    ensures rec.rightIndex == RightSite(c.lat, vertical, left, r)
    ensures rec.offsetX == (if vertical then 0 else Wraps(c.lat, vertical, left, r))
    ensures rec.offsetY == (if vertical then Wraps(c.lat, vertical, left, r) else 0)
  {
    var right := RightSite(c.lat, vertical, left, r);
    var wraps := Wraps(c.lat, vertical, left, r);
    var leftOp := c.onesite[c.table[left][ilop]].op;
    var rightOp := c.onesite[c.table[right][rilop]].op;
    var col := FinishColumn(c, vertical, right);
    var value := c.k.finish(Carried(c, vertical, left, leftOp, r), col, rightOp);
    var norm := c.k.finish(Carried(c, vertical, left, c.ids[left], r), col, c.ids[right]).re;
    Correlation(left, right, if vertical then 0 else wraps, if vertical then wraps else 0,
                ilop, rilop, Observed(value, norm))
  }

  /** A point in the nested loops of the measurement; `Emit` gives the
      records the loops emit from there. */
  datatype Stage =
    | LeftSites(n: nat)                                               // left sites 0 .. n - 1
    | LeftGroups(left: int, n: nat)                                   // one left site, groups 0 .. n - 1
    | LeftGroup(left: int, ilop: int)                                 // one left site and group
    | Steps(vertical: bool, left: int, ilop: int, n: nat)             // one direction, distances 0 .. n - 1
    | RightGroups(vertical: bool, left: int, ilop: int, r: nat, k: nat) // one distance, the first k right groups

  ghost predicate StageOk(c: CorrCtx, st: Stage)
  {
    && CorrCtxValid(c)
    && match st
       case LeftSites(n) => n <= c.lat.nUnit
       case LeftGroups(left, n) => 0 <= left < c.lat.nUnit && n <= c.nlops
       case LeftGroup(left, ilop) => 0 <= left < c.lat.nUnit && 0 <= ilop < c.nlops
       case Steps(_, left, ilop, _) => 0 <= left < c.lat.nUnit && 0 <= ilop < c.nlops && c.table[left][ilop] >= 0
       case RightGroups(_, left, ilop, _, k) =>
         0 <= left < c.lat.nUnit && 0 <= ilop < c.nlops && c.table[left][ilop] >= 0 && k <= |ROps(c, ilop)|
  }

  function StageRank(st: Stage): nat
  {
    match st
    case LeftSites(_) => 4
    case LeftGroups(_, _) => 3
    case LeftGroup(_, _) => 2
    case Steps(_, _, _, _) => 1
    case RightGroups(_, _, _, _, _) => 0
  }

  function StageCount(st: Stage): nat
  {
    match st
    case LeftSites(n) => n
    case LeftGroups(_, n) => n
    case LeftGroup(_, _) => 0
    case Steps(_, _, _, n) => n
    case RightGroups(_, _, _, _, k) => k
  }

  /** The records emitted from a stage, in order: left sites in order, for
      each its groups in order; a group with no partners or not assigned at the
      site gives nothing, otherwise its horizontal records and then its vertical
      ones; a direction gives its distances in order, and a distance gives one
      record per right group of `ilop`, in the order requested, that is
      assigned at the right site. */
  function Emit(c: CorrCtx, st: Stage): seq<Correlation>
    requires StageOk(c, st)
    decreases StageRank(st), StageCount(st)
  {
    match st
    case LeftSites(n) =>
      if n == 0 then [] else Emit(c, LeftSites(n - 1)) + Emit(c, LeftGroups(n - 1, c.nlops))
    case LeftGroups(left, n) =>
      if n == 0 then [] else Emit(c, LeftGroups(left, n - 1)) + Emit(c, LeftGroup(left, n - 1))
    case LeftGroup(left, ilop) =>
      if ROps(c, ilop) == [] || c.table[left][ilop] < 0 then []
      else Emit(c, Steps(false, left, ilop, Distances(c))) + Emit(c, Steps(true, left, ilop, Distances(c)))
    case Steps(vertical, left, ilop, n) =>
      if n == 0 then []
      else Emit(c, Steps(vertical, left, ilop, n - 1)) + Emit(c, RightGroups(vertical, left, ilop, n - 1, |ROps(c, ilop)|))
    case RightGroups(vertical, left, ilop, r, k) =>
      if k == 0 then []
      else
        var rilop := ROps(c, ilop)[k - 1];
        RightOpsMembers(c.param.operators, ilop, rilop);
        Emit(c, RightGroups(vertical, left, ilop, r, k - 1))
        + if c.table[RightSite(c.lat, vertical, left, r)][rilop] < 0 then []
          else [Rec(c, vertical, left, ilop, r, rilop)]
  }

  /** The records at distance r for the first k right groups of `ilop`. */
  function DistanceRecords(c: CorrCtx, vertical: bool, left: int, ilop: int, r: nat, k: nat): seq<Correlation>
    requires CorrCtxValid(c) && 0 <= left < c.lat.nUnit && 0 <= ilop < c.nlops
    requires c.table[left][ilop] >= 0 && k <= |ROps(c, ilop)|
  {
    Emit(c, RightGroups(vertical, left, ilop, r, k))
  }

  /** The records at distances 0 .. n - 1 in one direction. */
  function DirectionRecords(c: CorrCtx, vertical: bool, left: int, ilop: int, n: nat): seq<Correlation>
    requires CorrCtxValid(c) && 0 <= left < c.lat.nUnit && 0 <= ilop < c.nlops
    requires c.table[left][ilop] >= 0
  {
    Emit(c, Steps(vertical, left, ilop, n))
  }

  /** A left site and group. */
  function SiteOpRecords(c: CorrCtx, left: int, ilop: int): seq<Correlation>
    requires CorrCtxValid(c) && 0 <= left < c.lat.nUnit && 0 <= ilop < c.nlops
  {
    Emit(c, LeftGroup(left, ilop))
  }

  /** A left site, groups 0 .. n - 1. */
  function SiteRecords(c: CorrCtx, left: int, n: nat): seq<Correlation>
    requires CorrCtxValid(c) && 0 <= left < c.lat.nUnit && n <= c.nlops
  {
    Emit(c, LeftGroups(left, n))
  }

  /** Left sites 0 .. n - 1. */
  function Records(c: CorrCtx, n: nat): seq<Correlation>
    requires CorrCtxValid(c) && n <= c.lat.nUnit
  {
    Emit(c, LeftSites(n))
  }

  /** `rec` is the record of this (direction, left site, left group, distance, right group). */
  ghost predicate RecordOf(c: CorrCtx, rec: Correlation, vertical: bool, left: int, ilop: int, r: int, rilop: int)
    requires CorrCtxValid(c)
  {
    Emitted(c, vertical, left, ilop, r, rilop) && rec == Rec(c, vertical, left, ilop, r, rilop)
  }

  // Each level of the emission in two directions: every record it holds is
  // the record of some choice below it (the witness is returned), and every
  // such record is held.

  lemma {:induction false} DistanceSound(c: CorrCtx, vertical: bool, left: int, ilop: int, r: nat, k: nat, rec: Correlation)
    returns (rilop: int)
    requires CorrCtxValid(c) && 0 <= left < c.lat.nUnit && 0 <= ilop < c.nlops
    requires c.table[left][ilop] >= 0 && k <= |ROps(c, ilop)| && r < Distances(c)
    requires rec in DistanceRecords(c, vertical, left, ilop, r, k)
    ensures RecordOf(c, rec, vertical, left, ilop, r, rilop)
    decreases k
  {
    var last := ROps(c, ilop)[k - 1];
    if rec in DistanceRecords(c, vertical, left, ilop, r, k - 1) {
      rilop := DistanceSound(c, vertical, left, ilop, r, k - 1, rec);
    } else {
      RightOpsMembers(c.param.operators, ilop, last);
      rilop := last;
    }
  }

  lemma {:induction false} DistanceComplete(c: CorrCtx, vertical: bool, left: int, ilop: int, r: nat, k: nat,
                                            rilop: int, rec: Correlation)
    requires CorrCtxValid(c) && 0 <= left < c.lat.nUnit && 0 <= ilop < c.nlops
    requires c.table[left][ilop] >= 0 && k <= |ROps(c, ilop)|
    requires rilop in ROps(c, ilop)[..k] && RecordOf(c, rec, vertical, left, ilop, r, rilop)
    ensures rec in DistanceRecords(c, vertical, left, ilop, r, k)
    decreases k
  {
    var rops := ROps(c, ilop);
    assert rops[..k] == rops[..k - 1] + [rops[k - 1]];
    if rilop != rops[k - 1] {
      DistanceComplete(c, vertical, left, ilop, r, k - 1, rilop, rec);
    }
  }

  /** One more distance appends that distance's records. */
  lemma DirectionSplit(c: CorrCtx, vertical: bool, left: int, ilop: int, n: nat, rec: Correlation)
    requires CorrCtxValid(c) && 0 <= left < c.lat.nUnit && 0 <= ilop < c.nlops
    requires c.table[left][ilop] >= 0 && 0 < n
    ensures rec in DirectionRecords(c, vertical, left, ilop, n)
        <==> rec in DirectionRecords(c, vertical, left, ilop, n - 1)
             || rec in DistanceRecords(c, vertical, left, ilop, n - 1, |ROps(c, ilop)|)
  {
  }

  lemma {:induction false} DirectionSound(c: CorrCtx, vertical: bool, left: int, ilop: int, n: nat, rec: Correlation)
    returns (r: int, rilop: int)
    requires CorrCtxValid(c) && 0 <= left < c.lat.nUnit && 0 <= ilop < c.nlops
    requires c.table[left][ilop] >= 0 && n <= Distances(c)
    requires rec in DirectionRecords(c, vertical, left, ilop, n)
    ensures 0 <= r < n && RecordOf(c, rec, vertical, left, ilop, r, rilop)
    decreases n
  {
    DirectionSplit(c, vertical, left, ilop, n, rec);
    if rec in DirectionRecords(c, vertical, left, ilop, n - 1) {
      r, rilop := DirectionSound(c, vertical, left, ilop, n - 1, rec);
    } else {
      r := n - 1;
      rilop := DistanceSound(c, vertical, left, ilop, n - 1, |ROps(c, ilop)|, rec);
    }
  }

  lemma {:induction false} DirectionComplete(c: CorrCtx, vertical: bool, left: int, ilop: int, n: nat,
                                             r: int, rilop: int, rec: Correlation)
    requires CorrCtxValid(c) && 0 <= left < c.lat.nUnit && 0 <= ilop < c.nlops
    requires c.table[left][ilop] >= 0 && n <= Distances(c)
    requires 0 <= r < n && RecordOf(c, rec, vertical, left, ilop, r, rilop)
    ensures rec in DirectionRecords(c, vertical, left, ilop, n)
    decreases n
  {
    DirectionSplit(c, vertical, left, ilop, n, rec);
    if r < n - 1 {
      DirectionComplete(c, vertical, left, ilop, n - 1, r, rilop, rec);
    } else {
      var rops := ROps(c, ilop);
      RightOpsMembers(c.param.operators, ilop, rilop);
      assert rops[..|rops|] == rops;
      DistanceComplete(c, vertical, left, ilop, r, |rops|, rilop, rec);
    }
  }

  lemma SiteOpSound(c: CorrCtx, left: int, ilop: int, rec: Correlation) returns (vertical: bool, r: int, rilop: int)
    requires CorrCtxValid(c) && 0 <= left < c.lat.nUnit && 0 <= ilop < c.nlops
    requires rec in SiteOpRecords(c, left, ilop)
    ensures RecordOf(c, rec, vertical, left, ilop, r, rilop)
  {
    vertical := rec !in DirectionRecords(c, false, left, ilop, Distances(c));
    r, rilop := DirectionSound(c, vertical, left, ilop, Distances(c), rec);
  }

  lemma SiteOpComplete(c: CorrCtx, left: int, ilop: int, vertical: bool, r: int, rilop: int, rec: Correlation)
    requires CorrCtxValid(c) && 0 <= left < c.lat.nUnit && 0 <= ilop < c.nlops
    requires RecordOf(c, rec, vertical, left, ilop, r, rilop)
    ensures rec in SiteOpRecords(c, left, ilop)
  {
    RightOpsMembers(c.param.operators, ilop, rilop);
    assert rilop in ROps(c, ilop);
    DirectionComplete(c, vertical, left, ilop, Distances(c), r, rilop, rec);
  }

  /** One more left group appends that group's records. */
  lemma SiteSplit(c: CorrCtx, left: int, n: nat, rec: Correlation)
    requires CorrCtxValid(c) && 0 <= left < c.lat.nUnit && 0 < n <= c.nlops
    ensures rec in SiteRecords(c, left, n) <==> rec in SiteRecords(c, left, n - 1) || rec in SiteOpRecords(c, left, n - 1)
  {
  }

  lemma {:induction false} SiteSound(c: CorrCtx, left: int, n: nat, rec: Correlation) returns (ilop: int)
    requires CorrCtxValid(c) && 0 <= left < c.lat.nUnit && n <= c.nlops
    requires rec in SiteRecords(c, left, n)
    ensures 0 <= ilop < n && rec in SiteOpRecords(c, left, ilop)
    decreases n
  {
    SiteSplit(c, left, n, rec);
    if rec in SiteRecords(c, left, n - 1) {
      ilop := SiteSound(c, left, n - 1, rec);
    } else {
      ilop := n - 1;
    }
  }

  lemma {:induction false} SiteComplete(c: CorrCtx, left: int, n: nat, ilop: int, rec: Correlation)
    requires CorrCtxValid(c) && 0 <= left < c.lat.nUnit && n <= c.nlops
    requires 0 <= ilop < n && rec in SiteOpRecords(c, left, ilop)
    ensures rec in SiteRecords(c, left, n)
    decreases n
  {
    SiteSplit(c, left, n, rec);
    if ilop < n - 1 {
      SiteComplete(c, left, n - 1, ilop, rec);
    }
  }

  /** One more left site appends that site's records. */
  lemma RecordsSplit(c: CorrCtx, n: nat, rec: Correlation)
    requires CorrCtxValid(c) && 0 < n <= c.lat.nUnit
    ensures rec in Records(c, n) <==> rec in Records(c, n - 1) || rec in SiteRecords(c, n - 1, c.nlops)
  {
  }

  lemma {:induction false} RecordsSound(c: CorrCtx, n: nat, rec: Correlation) returns (left: int)
    requires CorrCtxValid(c) && n <= c.lat.nUnit
    requires rec in Records(c, n)
    ensures 0 <= left < n && rec in SiteRecords(c, left, c.nlops)
    decreases n
  {
    RecordsSplit(c, n, rec);
    if rec in Records(c, n - 1) {
      left := RecordsSound(c, n - 1, rec);
    } else {
      left := n - 1;
    }
  }

  lemma {:induction false} RecordsComplete(c: CorrCtx, n: nat, left: int, rec: Correlation)
    requires CorrCtxValid(c) && n <= c.lat.nUnit
    requires 0 <= left < n && rec in SiteRecords(c, left, c.nlops)
    ensures rec in Records(c, n)
    decreases n
  {
    RecordsSplit(c, n, rec);
    if left < n - 1 {
      RecordsComplete(c, n - 1, left, rec);
    }
  }

  /** A record is emitted exactly when it is the record of a left site, a left
      group assigned there, a distance below r_max, a direction, and a right
      group paired with the left one and assigned at the right site. */
  lemma CorrelationRecords(c: CorrCtx, rec: Correlation)
    requires CorrCtxValid(c)
    ensures rec in Records(c, c.lat.nUnit)
        <==> exists vertical, left, ilop, r, rilop :: RecordOf(c, rec, vertical, left, ilop, r, rilop)
  {
    if rec in Records(c, c.lat.nUnit) {
      var left := RecordsSound(c, c.lat.nUnit, rec);
      var ilop := SiteSound(c, left, c.nlops, rec);
      var vertical, r, rilop := SiteOpSound(c, left, ilop, rec);
    }
    if exists vertical, left, ilop, r, rilop :: RecordOf(c, rec, vertical, left, ilop, r, rilop) {
      var vertical, left, ilop, r, rilop :| RecordOf(c, rec, vertical, left, ilop, r, rilop);
      SiteOpComplete(c, left, ilop, vertical, r, rilop, rec);
      SiteComplete(c, left, c.nlops, ilop, rec);
      RecordsComplete(c, c.lat.nUnit, left, rec);
    }
  }

  /** With r_max <= 0 (the default) nothing is measured, whatever the pairs. */
  lemma NoDistanceNoRecords(c: CorrCtx)
    requires CorrCtxValid(c) && c.param.rMax <= 0
    ensures Records(c, c.lat.nUnit) == []
  {
    var recs := Records(c, c.lat.nUnit);
    if |recs| > 0 {
      assert recs[0] in recs;
      CorrelationRecords(c, recs[0]);
      assert false;
    }
  }

  // ---------------------------------------------------------------------------
  // measure_correlation
  // ---------------------------------------------------------------------------

  lemma DistanceGrows(c: CorrCtx, vertical: bool, left: int, ilop: int, r: nat, k: nat)
    requires CorrCtxValid(c) && 0 <= left < c.lat.nUnit && 0 <= ilop < c.nlops && c.table[left][ilop] >= 0
    requires k < |ROps(c, ilop)| && 0 <= ROps(c, ilop)[k] < c.nlops
    ensures DistanceRecords(c, vertical, left, ilop, r, k + 1)
         == DistanceRecords(c, vertical, left, ilop, r, k)
            + if c.table[RightSite(c.lat, vertical, left, r)][ROps(c, ilop)[k]] < 0 then []
              else [Rec(c, vertical, left, ilop, r, ROps(c, ilop)[k])]
  {
  }

  /** One distance: close the carried tensor at the right site with each
      right group of `ilop` that is assigned there, in the order requested. */
  method CloseAtDistance(c: CorrCtx, rops: seq<int>, vertical: bool, left: int, ilop: int, r: nat,
                         corrT: Tensor, norm: real)
    returns (recs: seq<Correlation>)
    requires CorrCtxValid(c) && 0 <= left < c.lat.nUnit && 0 <= ilop < c.nlops
    requires c.table[left][ilop] >= 0 && rops == ROps(c, ilop)
    requires corrT == Carried(c, vertical, left, c.onesite[c.table[left][ilop]].op, r)
    requires norm == c.k.finish(Carried(c, vertical, left, c.ids[left], r),
                                FinishColumn(c, vertical, RightSite(c.lat, vertical, left, r)),
                                c.ids[RightSite(c.lat, vertical, left, r)]).re
    ensures recs == DistanceRecords(c, vertical, left, ilop, r, |rops|)
  {
    var right := RightSite(c.lat, vertical, left, r);
    var finishCol := FinishColumn(c, vertical, right);
    recs := [];
    for k := 0 to |rops|
      invariant recs == DistanceRecords(c, vertical, left, ilop, r, k)
    {
      var rilop := rops[k];
      RightOpsMembers(c.param.operators, ilop, rilop);
      DistanceGrows(c, vertical, left, ilop, r, k);
      var rightIndex := c.table[right][rilop];
      if rightIndex < 0 {
        continue;
      }
      var value := c.k.finish(corrT, finishCol, c.onesite[rightIndex].op);
      var wraps := Wraps(c.lat, vertical, left, r);
      var rec := Correlation(left, right, if vertical then 0 else wraps, if vertical then wraps else 0,
                             ilop, rilop, Observed(value, norm));
      assert rec == Rec(c, vertical, left, ilop, r, rilop);
      recs := recs + [rec];
    }
  }

  /** One distance of one direction: close both carried tensors at the right
      site (emitting the records), then pass both through it. */
  method StepDistance(c: CorrCtx, rops: seq<int>, vertical: bool, left: int, ilop: int, r: nat,
                      corrT: Tensor, corrNorm: Tensor)
    returns (closed: seq<Correlation>, nextT: Tensor, nextNorm: Tensor)
    requires CorrCtxValid(c) && 0 <= left < c.lat.nUnit && 0 <= ilop < c.nlops
    requires c.table[left][ilop] >= 0 && rops == ROps(c, ilop)
    requires corrT == Carried(c, vertical, left, c.onesite[c.table[left][ilop]].op, r)
    requires corrNorm == Carried(c, vertical, left, c.ids[left], r)
    ensures closed == DistanceRecords(c, vertical, left, ilop, r, |rops|)
    ensures nextT == Carried(c, vertical, left, c.onesite[c.table[left][ilop]].op, r + 1)
    ensures nextNorm == Carried(c, vertical, left, c.ids[left], r + 1)
  {
    var right := RightSite(c.lat, vertical, left, r);
    var finishCol := FinishColumn(c, vertical, right);
    var norm := c.k.finish(corrNorm, finishCol, c.ids[right]).re;
    closed := CloseAtDistance(c, rops, vertical, left, ilop, r, corrT, norm);
    var pass := PassOf(c, vertical, right);
    nextT := c.k.transfer(corrT, pass);
    nextNorm := c.k.transfer(corrNorm, pass);
  }

  lemma DirectionGrows(c: CorrCtx, vertical: bool, left: int, ilop: int, r: nat)
    requires CorrCtxValid(c) && 0 <= left < c.lat.nUnit && 0 <= ilop < c.nlops && c.table[left][ilop] >= 0
    ensures DirectionRecords(c, vertical, left, ilop, r + 1)
         == DirectionRecords(c, vertical, left, ilop, r) + DistanceRecords(c, vertical, left, ilop, r, |ROps(c, ilop)|)
  {
  }

  /** One direction for one left site and group: start both carried tensors at
      the left site, then for each distance close them at the right site, emit
      one record per assigned right group, and pass both through the right site. */
  method MeasureDirection(c: CorrCtx, rops: seq<int>, vertical: bool, left: int, ilop: int)
    returns (recs: seq<Correlation>)
    requires CorrCtxValid(c) && 0 <= left < c.lat.nUnit && 0 <= ilop < c.nlops
    requires c.table[left][ilop] >= 0 && rops == ROps(c, ilop)
    ensures recs == DirectionRecords(c, vertical, left, ilop, Distances(c))
  {
    var leftOp := c.onesite[c.table[left][ilop]].op;
    var startCol := StartColumn(c, vertical, left);
    var corrT := c.k.start(startCol, leftOp);
    var corrNorm := c.k.start(startCol, c.ids[left]);
    recs := [];
    var r := 0;
    while r < c.param.rMax
      invariant 0 <= r <= Distances(c)
      invariant corrT == Carried(c, vertical, left, leftOp, r)
      invariant corrNorm == Carried(c, vertical, left, c.ids[left], r)
      invariant recs == DirectionRecords(c, vertical, left, ilop, r)
    {
      var closed;
      closed, corrT, corrNorm := StepDistance(c, rops, vertical, left, ilop, r, corrT, corrNorm);
      DirectionGrows(c, vertical, left, ilop, r);
      recs := recs + closed;
      r := r + 1;
    }
  }

  /** One left site: each left group with partners that is assigned at the
      site gives its horizontal records, then its vertical ones. */
  method MeasureSite(c: CorrCtx, rops: seq<seq<int>>, left: int) returns (recs: seq<Correlation>)
    requires CorrCtxValid(c) && 0 <= left < c.lat.nUnit
    requires |rops| == c.nlops && forall g :: 0 <= g < c.nlops ==> rops[g] == ROps(c, g)
    ensures recs == SiteRecords(c, left, c.nlops)
  {
    recs := [];
    for ilop := 0 to c.nlops
      invariant recs == SiteRecords(c, left, ilop)
    {
      assert rops[ilop] == ROps(c, ilop);
      assert SiteRecords(c, left, ilop + 1) == SiteRecords(c, left, ilop) + SiteOpRecords(c, left, ilop);
      if rops[ilop] == [] || c.table[left][ilop] < 0 {
        assert SiteOpRecords(c, left, ilop) == [];
        continue;
      }
      var horizontal := MeasureDirection(c, rops[ilop], false, left, ilop);
      var vertical := MeasureDirection(c, rops[ilop], true, left, ilop);
      assert SiteOpRecords(c, left, ilop) == horizontal + vertical;
      recs := recs + (horizontal + vertical);
    }
  }

  /** All correlation records, in the program's order: left sites ascending,
      then left groups ascending, the horizontal direction before the vertical,
      then distances ascending, then the right groups in the order requested. */
  method MeasureCorrelation(c: CorrCtx) returns (correlations: seq<Correlation>)
    requires CorrCtxValid(c)
    ensures correlations == Records(c, c.lat.nUnit)
  {
    var rops := BuildRightOps(c.param.operators, c.nlops);
    correlations := [];
    for left := 0 to c.lat.nUnit
      invariant correlations == Records(c, left)
    {
      var site := MeasureSite(c, rops, left);
      assert Records(c, left + 1) == Records(c, left) + SiteRecords(c, left, c.nlops);
      correlations := correlations + site;
    }
  }
}
