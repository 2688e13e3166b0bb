/** Two-site observables: the sub-grid ("block") of the unit cell that an
    operator spans, where its source and target sit in it, the cache of block
    norms, and the table of results keyed by Bond. */
module TwoSite {
  import opened Tensors
  import opened Lattices
  import opened Environment
  import opened Operators
  import opened Bonds

  /** The largest supported block side. */
  const NMax: int := 4

  function Abs(v: int): (a: int)
    ensures a >= 0 && (a == v || a == -v)
  {
    if v < 0 then -v else v
  }

  /** Block size and the cells of the source and the target. Rows grow
      downwards (row 0 is the top) while y grows upwards. */
  datatype Layout = Layout(nrow: int, ncol: int, sourceRow: int, sourceCol: int, targetRow: int, targetCol: int)

  datatype LayoutResult = TooLong | Block(layout: Layout)

  function LayoutOf(dx: int, dy: int): LayoutResult
  {
    var ncol := Abs(dx) + 1;
    var nrow := Abs(dy) + 1;
    if ncol > NMax || nrow > NMax then TooLong
    else
      var sourceCol := if dx >= 0 then 0 else ncol - 1;
      var targetCol := if dx >= 0 then ncol - 1 else 0;
      var sourceRow := if dy >= 0 then nrow - 1 else 0;
      var targetRow := if dy >= 0 then 0 else nrow - 1;
      Block(Layout(nrow, ncol, sourceRow, sourceCol, targetRow, targetCol))
  }

  predicate LayoutInBounds(l: Layout)
  {
    && 1 <= l.nrow <= NMax && 1 <= l.ncol <= NMax
    && 0 <= l.sourceRow < l.nrow && 0 <= l.targetRow < l.nrow
    && 0 <= l.sourceCol < l.ncol && 0 <= l.targetCol < l.ncol
  }

  /** The block is (|dy|+1) x (|dx|+1); it is refused exactly when a side
      exceeds 4; otherwise source and target sit at opposite corners so that
      going from source to target moves dx columns right and dy rows up. */
  lemma LayoutMeaning(dx: int, dy: int)
    ensures LayoutOf(dx, dy).TooLong? <==> Abs(dx) + 1 > NMax || Abs(dy) + 1 > NMax
    ensures LayoutOf(dx, dy).Block? ==> var l := LayoutOf(dx, dy).layout;
      && LayoutInBounds(l)
      && l.ncol == Abs(dx) + 1 && l.nrow == Abs(dy) + 1
      && (l.sourceCol == 0 <==> dx >= 0)
      && (l.sourceRow == l.nrow - 1 <==> dy >= 0)
      && l.targetCol - l.sourceCol == dx
      && l.sourceRow - l.targetRow == dy
  {
  }

  /** The program's test `nrow * ncol == 2` for the adjacent fast path. */
  predicate IsAdjacent(l: Layout)
  {
    (l.nrow == 2 && l.ncol == 1) || (l.nrow == 1 && l.ncol == 2)
  }

  /** The adjacent fast path (`nrow * ncol == 2`) is taken for a 2x1 or 1x2
      block, that is for a unit displacement along one axis. */
  lemma AdjacentBlocks(dx: int, dy: int)
    requires LayoutOf(dx, dy).Block?
    ensures var l := LayoutOf(dx, dy).layout;
      && (l.nrow * l.ncol == 2 <==> IsAdjacent(l))
      && (IsAdjacent(l) <==> ((Abs(dx) == 1 && dy == 0) || (dx == 0 && Abs(dy) == 1)))
  {
    var l := LayoutOf(dx, dy).layout;
    if l.nrow >= 2 && l.ncol >= 2 {
      MulMonotone(l.nrow, 2, l.ncol);
    }
  }

  /** `indices[row][col]`: the site found by moving (col - sourceCol,
      sourceRow - row) from the source. */
  function BlockIndices(lat: Lattice, source: int, l: Layout): (ix: seq<seq<int>>)
    requires l.nrow >= 0 && l.ncol >= 0
    ensures |ix| == l.nrow
    ensures forall r :: 0 <= r < |ix| ==> |ix[r]| == l.ncol
  {
    seq(l.nrow, row => seq(l.ncol, col => lat.other(source, col - l.sourceCol, l.sourceRow - row)))
  }

  predicate IndicesIn(ix: seq<seq<int>>, n: int)
  {
    forall r, c :: 0 <= r < |ix| && 0 <= c < |ix[r]| ==> 0 <= ix[r][c] < n
  }

  /** The displacement `other` is consistent with composition: moving by (a, b)
      and then by (c, d) is moving by (a + c, b + d). */
  ghost predicate TranslationConsistent(lat: Lattice)
  {
    forall s, a, b, c, d :: 0 <= s < lat.nUnit ==> lat.other(lat.other(s, a, b), c, d) == lat.other(s, a + c, b + d)
  }

  /** If `other` composes, the whole block is fixed by its top-left site and
      its size, which is what makes the norm cache keyed by
      (indices[0][0], nrow, ncol) sound. */
  lemma BlockFixedByTopLeft(lat: Lattice, source: int, l: Layout)
    requires Valid(lat) && TranslationConsistent(lat) && 0 <= source < lat.nUnit
    requires l.nrow >= 0 && l.ncol >= 0
    ensures l.nrow > 0 && l.ncol > 0 ==>
      var ix := BlockIndices(lat, source, l);
      forall r, c :: 0 <= r < l.nrow && 0 <= c < l.ncol ==> ix[r][c] == lat.other(ix[0][0], c, -r)
  {
    if l.nrow > 0 && l.ncol > 0 {
      var ix := BlockIndices(lat, source, l);
      forall r, c | 0 <= r < l.nrow && 0 <= c < l.ncol
        ensures ix[r][c] == lat.other(ix[0][0], c, -r)
      {
        CellFromTopLeft(lat, source, l, r, c);
      }
    }
  }

  lemma CellFromTopLeft(lat: Lattice, source: int, l: Layout, r: int, c: int)
    requires Valid(lat) && TranslationConsistent(lat) && 0 <= source < lat.nUnit
    requires 0 <= r < l.nrow && 0 <= c < l.ncol
    ensures BlockIndices(lat, source, l)[r][c] == lat.other(BlockIndices(lat, source, l)[0][0], c, -r)
  {
    var a, b := -l.sourceCol, l.sourceRow;
    assert BlockIndices(lat, source, l)[0][0] == lat.other(source, a, b);
    assert lat.other(lat.other(source, a, b), c, -r) == lat.other(source, a + c, b + -r);
  }

  /** Two layouts with the same top-left site and size span the same sites. */
  lemma SameKeySameBlock(lat: Lattice, s1: int, l1: Layout, s2: int, l2: Layout)
    requires Valid(lat) && TranslationConsistent(lat)
    requires l1.nrow >= 0 && l1.ncol >= 0 && l2.nrow >= 0 && l2.ncol >= 0
    requires 0 <= s1 < lat.nUnit && 0 <= s2 < lat.nUnit
    requires l1.nrow == l2.nrow && l1.ncol == l2.ncol && l1.nrow > 0 && l1.ncol > 0
    requires BlockIndices(lat, s1, l1)[0][0] == BlockIndices(lat, s2, l2)[0][0]
    ensures BlockIndices(lat, s1, l1) == BlockIndices(lat, s2, l2)
  {
    BlockFixedByTopLeft(lat, s1, l1);
    BlockFixedByTopLeft(lat, s2, l2);
    var ix1, ix2 := BlockIndices(lat, s1, l1), BlockIndices(lat, s2, l2);
    forall r | 0 <= r < l1.nrow ensures ix1[r] == ix2[r] {
    }
  }

  /** The source and the target cells hold the source site and the site
      displaced by (dx, dy). */
  lemma BlockEnds(lat: Lattice, source: int, dx: int, dy: int)
    requires LayoutOf(dx, dy).Block?
    ensures var l := LayoutOf(dx, dy).layout; var ix := BlockIndices(lat, source, l);
      && ix[l.sourceRow][l.sourceCol] == lat.other(source, 0, 0)
      && ix[l.targetRow][l.targetCol] == lat.other(source, dx, dy)
  {
    LayoutMeaning(dx, dy);
  }

  // ---------------------------------------------------------------------------
  // The tensors handed to the block contraction
  // ---------------------------------------------------------------------------

  datatype BlockEnv = BlockEnv(
    corners: seq<Tensor>,          // C1 of the top-left, C2 top-right, C3 bottom-right, C4 bottom-left
    top: seq<Tensor>, right: seq<Tensor>, bottom: seq<Tensor>, left: seq<Tensor>,
    bulk: seq<seq<Tensor>>)

  predicate BlockShaped(ix: seq<seq<int>>)
  {
    |ix| > 0 && |ix[0]| > 0 && forall r :: 0 <= r < |ix| ==> |ix[r]| == |ix[0]|
  }

  function BlockEnvOf(env: Env, tn: seq<Tensor>, ix: seq<seq<int>>): BlockEnv
    requires BlockShaped(ix) && EnvSized(env, |tn|) && IndicesIn(ix, |tn|)
  {
    var nrow, ncol := |ix|, |ix[0]|;
    BlockEnv(
      [env.c1[ix[0][0]], env.c2[ix[0][ncol - 1]], env.c3[ix[nrow - 1][ncol - 1]], env.c4[ix[nrow - 1][0]]],
      seq(ncol, col requires 0 <= col < ncol => env.eTt[ix[0][col]]),
      seq(nrow, row requires 0 <= row < nrow => env.eTr[ix[row][ncol - 1]]),
      seq(ncol, col requires 0 <= col < ncol => env.eTb[ix[nrow - 1][col]]),
      seq(nrow, row requires 0 <= row < nrow => env.eTl[ix[row][0]]),
      seq(nrow, row requires 0 <= row < nrow => seq(ncol, col requires 0 <= col < ncol => tn[ix[row][col]])))
  }

  /** For a two-cell block the tensors gathered are exactly those the
      adjacent contractions take: for a vertical pair (top, bottom) the
      corners C1, C2 of the top and C3, C4 of the bottom, the top edge of the
      top, the right and left edges of both, the bottom edge of the bottom and
      both site tensors; for a horizontal pair (left, right) the same around
      left and right. */
  lemma AdjacentBlockEnv(env: Env, tn: seq<Tensor>, a: int, b: int)
    requires EnvSized(env, |tn|) && 0 <= a < |tn| && 0 <= b < |tn|
    ensures var be := BlockEnvOf(env, tn, [[a], [b]]);
      && be.corners == [env.c1[a], env.c2[a], env.c3[b], env.c4[b]]
      && be.top == [env.eTt[a]] && be.bottom == [env.eTb[b]]
      && be.right == [env.eTr[a], env.eTr[b]] && be.left == [env.eTl[a], env.eTl[b]]
      && be.bulk == [[tn[a]], [tn[b]]]
    ensures var be := BlockEnvOf(env, tn, [[a, b]]);
      && be.corners == [env.c1[a], env.c2[b], env.c3[b], env.c4[a]]
      && be.top == [env.eTt[a], env.eTt[b]] && be.bottom == [env.eTb[a], env.eTb[b]]
      && be.right == [env.eTr[b]] && be.left == [env.eTl[a]]
      && be.bulk == [[tn[a], tn[b]]]
  {
    var v, h := BlockEnvOf(env, tn, [[a], [b]]), BlockEnvOf(env, tn, [[a, b]]);
    assert v.right == [env.eTr[a], env.eTr[b]] && v.left == [env.eTl[a], env.eTl[b]];
    assert |v.bulk| == 2 && v.bulk[0] == [tn[a]] && v.bulk[1] == [tn[b]];
    assert h.top == [env.eTt[a], env.eTt[b]] && h.bottom == [env.eTb[a], env.eTb[b]];
    assert h.bulk[0] == [tn[a], tn[b]];
  }

  /** The identity operator of every site of the block. */
  function IdentityGrid(ids: seq<Tensor>, ix: seq<seq<int>>): (g: seq<seq<Tensor>>)
    requires IndicesIn(ix, |ids|)
    ensures |g| == |ix| && forall r :: 0 <= r < |ix| ==> |g[r]| == |ix[r]|
  {
    seq(|ix|, row requires 0 <= row < |ix| => seq(|ix[row]|, col requires 0 <= col < |ix[row]| => ids[ix[row][col]]))
  }

  function SetCell(g: seq<seq<Tensor>>, r: int, c: int, t: Tensor): seq<seq<Tensor>>
    requires 0 <= r < |g| && 0 <= c < |g[r]|
  {
    g[r := g[r][c := t]]
  }

  /** One term of the factorisation op = sum_i s_i (A_i x B_i). */
  datatype SvdTerm = SvdTerm(s: real, sourceOp: Tensor, targetOp: Tensor)

  /** The numerical code the two-site measurement calls: the block
      contraction, the adjacent-pair contraction (vertical?, the environment
      and tensors of the two-cell block, operator), the leg transposition
      {1, 0, 3, 2} and the SVD. */
  datatype Kernels = Kernels(
    contract: (BlockEnv, seq<seq<Tensor>>) -> Value,
    adjacent: (bool, BlockEnv, Tensor) -> Value,
    transpose: Tensor -> Tensor,
    svd: Tensor -> seq<SvdTerm>)

  /** How the adjacent path decides whether to transpose the operator: by
      comparing the top or left SITE with the source site, as the program
      does, or by comparing CELLS, as it evidently intends. */
  datatype AdjacentRule = SiteTest | CellTest

  /** Everything the measurement reads, and the adjacent-path rule. */
  datatype Ctx = Ctx(
    lat: Lattice, env: Env, tn: seq<Tensor>, ids: seq<Tensor>,
    onesite: seq<Operator>, table: seq<seq<int>>, numOnesite: int, numTwosite: int,
    k: Kernels, rule: AdjacentRule)

  /** What the program demands of a two-site operator: a displacement, a
      source and group in range, and, when it is given as a product of
      one-site operators, two groups that are assigned at the source and at
      the target. */
  ghost predicate OpReady(c: Ctx, op: Operator)
    requires CtxValid(c)
  {
    && |op.dx| > 0 && |op.dy| > 0
    && 0 <= op.sourceSite < c.lat.nUnit
    && 0 <= op.group < c.numTwosite
    && (op.opsIndices != [] ==>
          && |op.opsIndices| >= 2
          && 0 <= op.opsIndices[0] < c.numOnesite && 0 <= op.opsIndices[1] < c.numOnesite
          && 0 <= c.table[op.sourceSite][op.opsIndices[0]] < |c.onesite|
          && 0 <= c.lat.other(op.sourceSite, op.dx[0], op.dy[0]) < c.lat.nUnit
          && 0 <= c.table[c.lat.other(op.sourceSite, op.dx[0], op.dy[0])][op.opsIndices[1]] < |c.onesite|)
  }

  ghost predicate CtxValid(c: Ctx)
  {
    && Valid(c.lat)
    && |c.tn| == c.lat.nUnit && |c.ids| == c.lat.nUnit && EnvSized(c.env, c.lat.nUnit)
    && c.numOnesite >= 0 && c.numTwosite >= 0
    && TableShaped(c.table, c.lat.nUnit, c.numOnesite)
  }

  ghost predicate OpsReady(c: Ctx, ops: seq<Operator>)
    requires CtxValid(c)
  {
    forall i :: 0 <= i < |ops| ==> OpReady(c, ops[i])
  }

  lemma IndicesInUnit(c: Ctx, source: int, l: Layout)
    requires CtxValid(c) && 0 <= source < c.lat.nUnit && LayoutInBounds(l)
    ensures BlockShaped(BlockIndices(c.lat, source, l))
    ensures IndicesIn(BlockIndices(c.lat, source, l), c.lat.nUnit)
  {
  }

  /** The norm of a block: its contraction with the identity everywhere. */
  function BlockNorm(c: Ctx, ix: seq<seq<int>>): real
    requires CtxValid(c) && BlockShaped(ix) && IndicesIn(ix, c.lat.nUnit)
  {
    c.k.contract(BlockEnvOf(c.env, c.tn, ix), IdentityGrid(c.ids, ix)).re
  }

  /** sum_i s_i * <A_i at the source, B_i at the target>. */
  function SvdSum(c: Ctx, be: BlockEnv, grid: seq<seq<Tensor>>, l: Layout, terms: seq<SvdTerm>): Value
    requires LayoutInBounds(l) && |grid| == l.nrow && forall r :: 0 <= r < |grid| ==> |grid[r]| == l.ncol
    decreases |terms|
  {
    if terms == [] then Zero
    else
      var t := terms[|terms| - 1];
      var g1 := SetCell(grid, l.sourceRow, l.sourceCol, t.sourceOp);
      var g2 := SetCell(g1, l.targetRow, l.targetCol, t.targetOp);
      Add(SvdSum(c, be, grid, l, terms[..|terms| - 1]), Scale(c.k.contract(be, g2), t.s))
  }

  /** The operator handed to the adjacent contraction AS WRITTEN: transposed
      unless the first (top or left) site of the pair is the source site. This
      compares sites, not cells, so it goes wrong when the target is the source
      itself (a unit cell one site wide along the bond). */
  function AdjacentOpAsWritten(c: Ctx, op: Operator, first: int): Tensor
  {
    if first == op.sourceSite then op.op else c.k.transpose(op.op)
  }

  /** The operator handed to the adjacent contraction as evidently intended:
      its first leg acts on the first (top or left) cell, so it is transposed
      unless the source occupies that cell. */
  function AdjacentOp(c: Ctx, op: Operator, l: Layout): Tensor
  {
    var sourceFirst := if l.nrow == 2 then l.sourceRow == 0 else l.sourceCol == 0;
    if sourceFirst then op.op else c.k.transpose(op.op)
  }

  /** The corrected operator agrees with the program whenever the target is a
      different site from the source (and `other` does not move for (0, 0)). */
  lemma AdjacentOpAgrees(c: Ctx, op: Operator)
    requires CtxValid(c) && OpReady(c, op) && LayoutOf(op.dx[0], op.dy[0]).Block?
    requires IsAdjacent(LayoutOf(op.dx[0], op.dy[0]).layout)
    requires c.lat.other(op.sourceSite, 0, 0) == op.sourceSite
    requires c.lat.other(op.sourceSite, op.dx[0], op.dy[0]) != op.sourceSite
    ensures var l := LayoutOf(op.dx[0], op.dy[0]).layout;
      var ix := BlockIndices(c.lat, op.sourceSite, l);
      AdjacentOpAsWritten(c, op, ix[0][0]) == AdjacentOp(c, op, l)
  {
    var l := LayoutOf(op.dx[0], op.dy[0]).layout;
    LayoutMeaning(op.dx[0], op.dy[0]);
    AdjacentBlocks(op.dx[0], op.dy[0]);
    var ix := BlockIndices(c.lat, op.sourceSite, l);
    assert ix[0][0] == c.lat.other(op.sourceSite, -l.sourceCol, l.sourceRow);
  }

  /** The input that shows the difference: a one-site unit cell, where every
      displacement leads back to site 0, and a vertical operator with
      (dx, dy) = (0, 1). The source sits in the bottom cell, yet the program
      hands the operator untransposed, as if the source were on top. */
  lemma AdjacentOpAsWrittenSwapsLegs()
    ensures var lat := Lattice(1, 1, 1, [2], [[1, 1, 1, 1]],
                               (s, leg) => 0, (s, dx, dy) => 0, (x, y) => 0, s => 0, s => 0);
      var t := Tensor([2, 2, 2, 2], Entries([1.0]));
      var none: seq<SvdTerm> := [];
      var k := Kernels((be: BlockEnv, g: seq<seq<Tensor>>) => Zero,
                       (v: bool, be: BlockEnv, o: Tensor) => Zero,
                       (o: Tensor) => Tensor(o.shape, Unspecified), (o: Tensor) => none);
      var c := Ctx(lat, Env([], [], [], [], [], [], [], []), [], [], [], [[]], 0, 1, k, SiteTest);
      var op := Operator(0, 0, [0], [1], [], t);
      var l := LayoutOf(0, 1).layout;
      && l.nrow == 2 && l.sourceRow == 1
      && BlockIndices(lat, 0, l)[0][0] == 0
      && AdjacentOpAsWritten(c, op, BlockIndices(lat, 0, l)[0][0]) == t
      && AdjacentOp(c, op, l) == Tensor(t.shape, Unspecified)
      && AdjacentOp(c, op, l) != AdjacentOpAsWritten(c, op, BlockIndices(lat, 0, l)[0][0])
  {
  }

  /** The operator the adjacent path hands over under the context's rule;
      `first` is the top or left site of the pair. */
  function AdjacentOperand(c: Ctx, op: Operator, l: Layout, first: int): (t: Tensor)
    ensures c.rule == SiteTest ==> t == AdjacentOpAsWritten(c, op, first)
    ensures c.rule == CellTest ==> t == AdjacentOp(c, op, l)
  {
    match c.rule
    case SiteTest => AdjacentOpAsWritten(c, op, first)
    case CellTest => AdjacentOp(c, op, l)
  }

  /** The numerator of the observable (before division by the norm). */
  function OpValue(c: Ctx, op: Operator): Value
    requires CtxValid(c) && OpReady(c, op) && LayoutOf(op.dx[0], op.dy[0]).Block?
  {
    var l := LayoutOf(op.dx[0], op.dy[0]).layout;
    LayoutMeaning(op.dx[0], op.dy[0]);
    IndicesInUnit(c, op.sourceSite, l);
    var ix := BlockIndices(c.lat, op.sourceSite, l);
    var be := BlockEnvOf(c.env, c.tn, ix);
    var grid := IdentityGrid(c.ids, ix);
    if op.opsIndices == [] then
      if IsAdjacent(l) then
        var a := AdjacentOperand(c, op, l, ix[0][0]);
        c.k.adjacent(l.nrow == 2, be, a)
      else SvdSum(c, be, grid, l, c.k.svd(op.op))
    else
      var sourceOp := c.onesite[c.table[op.sourceSite][op.opsIndices[0]]].op;
      var targetSite := c.lat.other(op.sourceSite, op.dx[0], op.dy[0]);
      var targetOp := c.onesite[c.table[targetSite][op.opsIndices[1]]].op;
      var g1 := SetCell(grid, l.sourceRow, l.sourceCol, sourceOp);
      var g2 := SetCell(g1, l.targetRow, l.targetCol, targetOp);
      c.k.contract(be, g2)
  }

  type NormKey = (int, int, int)

  function KeyOf(c: Ctx, op: Operator): NormKey
    requires CtxValid(c) && OpReady(c, op) && LayoutOf(op.dx[0], op.dy[0]).Block?
  {
    var l := LayoutOf(op.dx[0], op.dy[0]).layout;
    LayoutMeaning(op.dx[0], op.dy[0]);
    (BlockIndices(c.lat, op.sourceSite, l)[0][0], l.nrow, l.ncol)
  }

  function OpNorm(c: Ctx, op: Operator): real
    requires CtxValid(c) && OpReady(c, op) && LayoutOf(op.dx[0], op.dy[0]).Block?
  {
    var l := LayoutOf(op.dx[0], op.dy[0]).layout;
    LayoutMeaning(op.dx[0], op.dy[0]);
    IndicesInUnit(c, op.sourceSite, l);
    BlockNorm(c, BlockIndices(c.lat, op.sourceSite, l))
  }

  function BondOf(op: Operator): Bond
    requires |op.dx| > 0 && |op.dy| > 0
  {
    Bond(op.sourceSite, op.dx[0], op.dy[0])
  }

  /** The results so far and the norm cache. */
  datatype Acc = Acc(ret: seq<map<Bond, Observed>>, norms: map<NormKey, real>)

  /** The norm used for an operator: the cached one for its key, if any,
      else the freshly computed norm of its block. */
  function NormUsed(c: Ctx, norms: map<NormKey, real>, op: Operator): real
    requires CtxValid(c) && OpReady(c, op) && LayoutOf(op.dx[0], op.dy[0]).Block?
  {
    var key := KeyOf(c, op);
    if key in norms then norms[key] else OpNorm(c, op)
  }

  /** One operator of the measurement loop: skipped if too long; otherwise
      the norm is taken from the cache or computed and cached, and the result
      is stored under (source, dx, dy) in its group. */
  function Step(c: Ctx, acc: Acc, op: Operator): (a: Acc)
    requires CtxValid(c) && OpReady(c, op) && |acc.ret| == c.numTwosite
    ensures |a.ret| == c.numTwosite
    ensures a.norms == StepNorms(c, acc.norms, op)
  {
    if LayoutOf(op.dx[0], op.dy[0]).TooLong? then acc
    else
      var norm := NormUsed(c, acc.norms, op);
      Acc(acc.ret[op.group := acc.ret[op.group][BondOf(op) := Observed(OpValue(c, op), norm)]],
          StepNorms(c, acc.norms, op))
  }

  /** The cache after one operator: unchanged when it is skipped, otherwise
      its key maps to the norm it used. */
  function StepNorms(c: Ctx, norms: map<NormKey, real>, op: Operator): map<NormKey, real>
    requires CtxValid(c) && OpReady(c, op)
  {
    if LayoutOf(op.dx[0], op.dy[0]).TooLong? then norms
    else norms[KeyOf(c, op) := NormUsed(c, norms, op)]
  }

  function Initial(num: nat): Acc
  {
    Acc(seq(num, _ => map[]), map[])
  }

  /** The measurement loop over the operators, in order. */
  function Fold(c: Ctx, ops: seq<Operator>): (a: Acc)
    requires CtxValid(c) && OpsReady(c, ops)
    ensures |a.ret| == c.numTwosite
    decreases |ops|
  {
    if ops == [] then Initial(c.numTwosite)
    else Step(c, Fold(c, ops[..|ops| - 1]), ops[|ops| - 1])
  }

  predicate Measured(op: Operator, group: int, b: Bond)
  {
    |op.dx| > 0 && |op.dy| > 0 && op.group == group && BondOf(op) == b
    && LayoutOf(op.dx[0], op.dy[0]).Block?
  }

  /** The index of the last operator measured under (group, bond), or -1. */
  function LastMeasured(ops: seq<Operator>, g: int, b: Bond): (j: int)
    ensures -1 <= j < |ops|
    ensures j == -1 <==> forall i :: 0 <= i < |ops| ==> !Measured(ops[i], g, b)
    ensures j >= 0 ==> Measured(ops[j], g, b) && forall i :: j < i < |ops| ==> !Measured(ops[i], g, b)
    decreases |ops|
  {
    if ops == [] then -1
    else if Measured(ops[|ops| - 1], g, b) then |ops| - 1
    else LastMeasured(ops[..|ops| - 1], g, b)
  }

  /** A step touches only the entry of its own group and bond. */
  lemma StepFrame(c: Ctx, acc: Acc, op: Operator, g: int, b: Bond)
    requires CtxValid(c) && OpReady(c, op) && |acc.ret| == c.numTwosite && 0 <= g < c.numTwosite
    requires !Measured(op, g, b)
    ensures b in Step(c, acc, op).ret[g] <==> b in acc.ret[g]
    ensures b in acc.ret[g] ==> Step(c, acc, op).ret[g][b] == acc.ret[g][b]
  {
  }

  /** A step that measures (group, bond) stores its value and the norm it used. */
  lemma StepWrites(c: Ctx, acc: Acc, op: Operator)
    requires CtxValid(c) && OpReady(c, op) && |acc.ret| == c.numTwosite
    requires LayoutOf(op.dx[0], op.dy[0]).Block?
    ensures BondOf(op) in Step(c, acc, op).ret[op.group]
    ensures Step(c, acc, op).ret[op.group][BondOf(op)] == Observed(OpValue(c, op), NormUsed(c, acc.norms, op))
  {
  }

  /** With a composing `other`, every cached norm is the norm of the block its
      key describes. */
  ghost predicate CacheSound(c: Ctx, norms: map<NormKey, real>)
    requires CtxValid(c)
  {
    forall key :: key in norms ==>
      && 0 <= key.0 < c.lat.nUnit && 1 <= key.1 <= NMax && 1 <= key.2 <= NMax
      && norms[key] == BlockNorm(c, KeyBlock(c.lat, key))
  }

  /** The block a norm key stands for: rows and columns counted from its
      top-left site. */
  function KeyBlock(lat: Lattice, key: NormKey): (ix: seq<seq<int>>)
    requires Valid(lat) && 0 <= key.0 < lat.nUnit && 1 <= key.1 && 1 <= key.2
    ensures BlockShaped(ix) && IndicesIn(ix, lat.nUnit) && |ix| == key.1 && |ix[0]| == key.2
  {
    seq(key.1, row => seq(key.2, col => lat.other(key.0, col, -row)))
  }

  /** With a composing `other`, the block of a layout is the block its key
      (top-left site, rows, columns) describes. */
  lemma LayoutBlockIsKeyBlock(lat: Lattice, source: int, l: Layout)
    requires Valid(lat) && TranslationConsistent(lat) && 0 <= source < lat.nUnit && LayoutInBounds(l)
    ensures BlockIndices(lat, source, l) == KeyBlock(lat, (BlockIndices(lat, source, l)[0][0], l.nrow, l.ncol))
  {
    var ix := BlockIndices(lat, source, l);
    BlockFixedByTopLeft(lat, source, l);
    var kb := KeyBlock(lat, (ix[0][0], l.nrow, l.ncol));
    forall r | 0 <= r < l.nrow
      ensures ix[r] == kb[r]
    {
      assert |ix[r]| == |kb[r]|;
      forall col | 0 <= col < l.ncol
        ensures ix[r][col] == kb[r][col]
      {
      }
    }
  }

  lemma KeyBlockIsBlock(c: Ctx, op: Operator)
    requires CtxValid(c) && OpReady(c, op) && LayoutOf(op.dx[0], op.dy[0]).Block?
    requires TranslationConsistent(c.lat)
    ensures var key := KeyOf(c, op);
      && 0 <= key.0 < c.lat.nUnit && 1 <= key.1 <= NMax && 1 <= key.2 <= NMax
      && OpNorm(c, op) == BlockNorm(c, KeyBlock(c.lat, key))
  {
    var l := LayoutOf(op.dx[0], op.dy[0]).layout;
    LayoutMeaning(op.dx[0], op.dy[0]);
    IndicesInUnit(c, op.sourceSite, l);
    LayoutBlockIsKeyBlock(c.lat, op.sourceSite, l);
  }

  lemma CacheInsert(c: Ctx, norms: map<NormKey, real>, key: NormKey, v: real)
    requires CtxValid(c) && CacheSound(c, norms)
    requires 0 <= key.0 < c.lat.nUnit && 1 <= key.1 <= NMax && 1 <= key.2 <= NMax
    requires v == BlockNorm(c, KeyBlock(c.lat, key))
    ensures CacheSound(c, norms[key := v])
  {
  }

  /** The norm key of an operator names its own block. */
  predicate KeyNamesBlock(c: Ctx, op: Operator)
    requires CtxValid(c) && OpReady(c, op) && LayoutOf(op.dx[0], op.dy[0]).Block?
  {
    var key := KeyOf(c, op);
    && 0 <= key.0 < c.lat.nUnit && 1 <= key.1 <= NMax && 1 <= key.2 <= NMax
    && OpNorm(c, op) == BlockNorm(c, KeyBlock(c.lat, key))
  }

  /** One step keeps the cache sound, keeps every cached key, and uses the
      norm of its own block, provided its key names its block (which holds
      whenever `other` composes, by KeyBlockIsBlock). */
  lemma StepKeepsCacheSound(c: Ctx, norms: map<NormKey, real>, op: Operator)
    requires CtxValid(c) && OpReady(c, op) && CacheSound(c, norms)
    requires LayoutOf(op.dx[0], op.dy[0]).Block? ==> KeyNamesBlock(c, op)
    ensures CacheSound(c, StepNorms(c, norms, op))
    ensures norms.Keys <= StepNorms(c, norms, op).Keys
    ensures LayoutOf(op.dx[0], op.dy[0]).Block? ==> NormUsed(c, norms, op) == OpNorm(c, op)
  {
    if LayoutOf(op.dx[0], op.dy[0]).Block? {
      NormUsedIsOwn(c, norms, op);
      CacheInsert(c, norms, KeyOf(c, op), NormUsed(c, norms, op));
    }
  }

  /** With a sound cache, the norm an operator uses, cached or fresh, is the
      norm of the block its key names. */
  lemma NormUsedIsOwn(c: Ctx, norms: map<NormKey, real>, op: Operator)
    requires CtxValid(c) && OpReady(c, op) && CacheSound(c, norms)
    requires LayoutOf(op.dx[0], op.dy[0]).Block? && KeyNamesBlock(c, op)
    ensures NormUsed(c, norms, op) == OpNorm(c, op) == BlockNorm(c, KeyBlock(c.lat, KeyOf(c, op)))
  {
    var key := KeyOf(c, op);
    if key in norms {
      assert norms[key] == BlockNorm(c, KeyBlock(c.lat, key));
    }
  }

  /** The case where the two adjacent-path rules agree: whenever an operator
      takes the adjacent path, `other` does not move its source for (0, 0)
      and its target is a different site. */
  ghost predicate AdjacentEndsDistinct(c: Ctx, op: Operator)
    requires CtxValid(c) && OpReady(c, op)
  {
    (LayoutOf(op.dx[0], op.dy[0]).Block? && IsAdjacent(LayoutOf(op.dx[0], op.dy[0]).layout) && op.opsIndices == [])
      ==> && c.lat.other(op.sourceSite, 0, 0) == op.sourceSite
          && c.lat.other(op.sourceSite, op.dx[0], op.dy[0]) != op.sourceSite
  }

  /** The rule is not part of what the measurement demands of its inputs. */
  lemma RuleKeepsReady(c: Ctx, ops: seq<Operator>, r: AdjacentRule)
    requires CtxValid(c) && OpsReady(c, ops)
    ensures CtxValid(c.(rule := r)) && OpsReady(c.(rule := r), ops)
  {
    var c' := c.(rule := r);
    forall i | 0 <= i < |ops|
      ensures OpReady(c', ops[i])
    {
      assert OpReady(c, ops[i]);
    }
  }

  /** The SVD sum reads the kernels only, not the rule. */
  lemma {:induction false} SvdSumIgnoresRule(c: Ctx, be: BlockEnv, grid: seq<seq<Tensor>>, l: Layout, terms: seq<SvdTerm>, r: AdjacentRule)
    requires LayoutInBounds(l) && |grid| == l.nrow && forall row :: 0 <= row < |grid| ==> |grid[row]| == l.ncol
    ensures SvdSum(c, be, grid, l, terms) == SvdSum(c.(rule := r), be, grid, l, terms)
    decreases |terms|
  {
    if terms != [] {
      SvdSumIgnoresRule(c, be, grid, l, terms[..|terms| - 1], r);
    }
  }

  /** One operator's value is the same under both rules when its ends are
      distinct. */
  lemma OpValueRuleAgrees(c: Ctx, op: Operator)
    requires CtxValid(c) && OpReady(c, op) && LayoutOf(op.dx[0], op.dy[0]).Block?
    requires AdjacentEndsDistinct(c, op)
    ensures CtxValid(c.(rule := SiteTest)) && OpReady(c.(rule := SiteTest), op)
      && CtxValid(c.(rule := CellTest)) && OpReady(c.(rule := CellTest), op)
      && OpValue(c.(rule := SiteTest), op) == OpValue(c.(rule := CellTest), op)
  {
    RuleKeepsReady(c, [op], SiteTest);
    RuleKeepsReady(c, [op], CellTest);
    assert OpReady(c.(rule := SiteTest), [op][0]);
    assert OpReady(c.(rule := CellTest), [op][0]);
    var l := LayoutOf(op.dx[0], op.dy[0]).layout;
    if IsAdjacent(l) && op.opsIndices == [] {
      AdjacentOpAgrees(c.(rule := SiteTest), op);
      LayoutMeaning(op.dx[0], op.dy[0]);
      var ix := BlockIndices(c.lat, op.sourceSite, l);
      assert AdjacentOperand(c.(rule := SiteTest), op, l, ix[0][0]) == AdjacentOperand(c.(rule := CellTest), op, l, ix[0][0]);
    } else if op.opsIndices == [] {
      LayoutMeaning(op.dx[0], op.dy[0]);
      IndicesInUnit(c, op.sourceSite, l);
      var ix := BlockIndices(c.lat, op.sourceSite, l);
      var grid := IdentityGrid(c.ids, ix);
      SvdSumIgnoresRule(c.(rule := SiteTest), BlockEnvOf(c.env, c.tn, ix), grid, l, c.k.svd(op.op), CellTest);
    }
  }

  /** The whole measurement loop gives the same table and cache under the
      program's site test and under the intended cell test, as long as no
      adjacent-path operator joins a site to itself. */
  lemma {:induction false} FoldRuleAgrees(c: Ctx, ops: seq<Operator>)
    requires CtxValid(c) && OpsReady(c, ops)
    requires forall i :: 0 <= i < |ops| ==> AdjacentEndsDistinct(c, ops[i])
    ensures CtxValid(c.(rule := SiteTest)) && OpsReady(c.(rule := SiteTest), ops)
      && CtxValid(c.(rule := CellTest)) && OpsReady(c.(rule := CellTest), ops)
      && Fold(c.(rule := SiteTest), ops) == Fold(c.(rule := CellTest), ops)
    decreases |ops|
  {
    RuleKeepsReady(c, ops, SiteTest);
    RuleKeepsReady(c, ops, CellTest);
    if ops != [] {
      var init, op := ops[..|ops| - 1], ops[|ops| - 1];
      assert OpsReady(c, init) && OpReady(c, op);
      assert forall i :: 0 <= i < |init| ==> AdjacentEndsDistinct(c, init[i]) by {
        forall i | 0 <= i < |init|
          ensures AdjacentEndsDistinct(c, init[i])
        {
          assert init[i] == ops[i];
        }
      }
      FoldRuleAgrees(c, init);
      assert AdjacentEndsDistinct(c, ops[|ops| - 1]);
      StepRuleAgrees(c, Fold(c.(rule := SiteTest), init), op);
    }
  }

  lemma StepRuleAgrees(c: Ctx, acc: Acc, op: Operator)
    requires CtxValid(c) && OpReady(c, op) && AdjacentEndsDistinct(c, op) && |acc.ret| == c.numTwosite
    ensures CtxValid(c.(rule := SiteTest)) && OpReady(c.(rule := SiteTest), op)
      && CtxValid(c.(rule := CellTest)) && OpReady(c.(rule := CellTest), op)
      && Step(c.(rule := SiteTest), acc, op) == Step(c.(rule := CellTest), acc, op)
  {
    RuleKeepsReady(c, [op], SiteTest);
    RuleKeepsReady(c, [op], CellTest);
    assert OpReady(c.(rule := SiteTest), [op][0]);
    assert OpReady(c.(rule := CellTest), [op][0]);
    if LayoutOf(op.dx[0], op.dy[0]).Block? {
      OpValueRuleAgrees(c, op);
    }
  }

  /** measure_twosite: the loop itself, with the results and the norm cache
      held in variables; it computes exactly the fold. */
  method MeasureTwosite(c: Ctx, ops: seq<Operator>) returns (ret: seq<map<Bond, Observed>>, norms: map<NormKey, real>)
    requires CtxValid(c) && OpsReady(c, ops)
    ensures Acc(ret, norms) == Fold(c, ops)
  {
    ret := seq(c.numTwosite, _ => map[]);
    norms := map[];
    for i := 0 to |ops|
      invariant OpsReady(c, ops[..i])
      invariant Acc(ret, norms) == Fold(c, ops[..i])
    {
      var op := ops[i];
      assert ops[..i + 1][..i] == ops[..i];
      assert OpsReady(c, ops[..i + 1]);
      assert Fold(c, ops[..i + 1]) == Step(c, Fold(c, ops[..i]), op);
      if LayoutOf(op.dx[0], op.dy[0]).TooLong? {
        continue;
      }
      var key := KeyOf(c, op);
      var norm: real;
      if key in norms {
        norm := norms[key];
        assert norms[key := norm] == norms;
      } else {
        norm := OpNorm(c, op);
      }
      norms := norms[key := norm];
      ret := ret[op.group := ret[op.group][BondOf(op) := Observed(OpValue(c, op), norm)]];
    }
    assert ops[..|ops|] == ops;
  }

  /** With a composing `other`, the cache stays sound through the whole loop. */
  lemma {:induction false} FoldCacheSound(c: Ctx, ops: seq<Operator>)
    requires CtxValid(c) && OpsReady(c, ops) && TranslationConsistent(c.lat)
    ensures CacheSound(c, Fold(c, ops).norms)
    decreases |ops|
  {
    if ops != [] {
      var init, op := ops[..|ops| - 1], ops[|ops| - 1];
      assert OpsReady(c, init);
      FoldCacheSound(c, init);
      if LayoutOf(op.dx[0], op.dy[0]).Block? {
        KeyBlockIsBlock(c, op);
      }
      StepKeepsCacheSound(c, Fold(c, init).norms, op);
    }
  }

  /** Hence every operator that is not skipped uses the norm of its own block. */
  lemma FoldUsesOwnNorm(c: Ctx, init: seq<Operator>, op: Operator)
    requires CtxValid(c) && OpsReady(c, init) && OpReady(c, op) && TranslationConsistent(c.lat)
    requires LayoutOf(op.dx[0], op.dy[0]).Block?
    ensures NormUsed(c, Fold(c, init).norms, op) == OpNorm(c, op)
  {
    FoldCacheSound(c, init);
    KeyBlockIsBlock(c, op);
    NormUsedIsOwn(c, Fold(c, init).norms, op);
  }

  /** The measured table against a reference without the cache: when
      `other` composes, the entry for (group, bond) exists exactly when some
      operator of that group and bond was not skipped, and it holds the value
      and the freshly computed norm of the LAST such operator (a later operator
      with the same key overwrites an earlier one). */
  lemma {:induction false} TwositeTable(c: Ctx, ops: seq<Operator>, g: int, b: Bond)
    requires CtxValid(c) && OpsReady(c, ops) && TranslationConsistent(c.lat) && 0 <= g < c.numTwosite
    ensures b in Fold(c, ops).ret[g] <==> LastMeasured(ops, g, b) != -1
    ensures LastMeasured(ops, g, b) != -1 ==>
      var op := ops[LastMeasured(ops, g, b)];
      Fold(c, ops).ret[g][b] == Observed(OpValue(c, op), OpNorm(c, op))
    decreases |ops|
  {
    if ops != [] {
      var init := ops[..|ops| - 1];
      var op := ops[|ops| - 1];
      assert OpsReady(c, init);
      TwositeTable(c, init, g, b);
      var a0 := Fold(c, init);
      assert Fold(c, ops) == Step(c, a0, op);
      if Measured(op, g, b) {
        FoldUsesOwnNorm(c, init, op);
        StepWrites(c, a0, op);
      } else {
        StepFrame(c, a0, op, g, b);
        assert LastMeasured(ops, g, b) == LastMeasured(init, g, b);
        if LastMeasured(init, g, b) != -1 {
          assert ops[LastMeasured(ops, g, b)] == init[LastMeasured(init, g, b)];
        }
      }
    }
  }
}
