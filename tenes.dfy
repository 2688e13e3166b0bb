/** The solver object: the site tensors, the environment, the bond spectra
    (lambdas) and the operator tables it keeps, the start-up that allocates or
    loads them, the simple and full update loops that rewrite them, and the
    measurements and the checkpoint that read them. The numerics (bond
    kernels, CTM passes and moves) are parameters the model does not
    interpret. */
module Solver {
  import opened Tensors
  import opened Lattices
  import opened Environment
  import opened Operators
  import opened FullUpdateTable
  import opened Checkpoint
  import opened Bonds
  import TwoSite
  import OneSite
  import Correlations

  // ---------------------------------------------------------------------------
  // Start-up allocation
  // ---------------------------------------------------------------------------

  /** A site tensor: the four virtual legs, then the physical leg. */
  function SiteShape(lat: Lattice, i: int): (shape: seq<int>)
    requires Lattices.Valid(lat) && Site(lat, i)
    ensures |shape| == NLeg + 1 && PositiveDims(shape)
  {
    var v := lat.virtualDims[i];
    [v[0], v[1], v[2], v[3], lat.physicalDims[i]]
  }

  /** An edge tensor: two environment legs of dimension CHI and the virtual
      leg it faces, twice (ket and bra). */
  function EdgeShape(chi: int, d: int): seq<int>
  {
    [chi, chi, d, d]
  }

  /** The environment allocated for sites [0, m); the edge on a side carries
      the dimension of the site's leg on that side. */
  function AllocatedUpTo(lat: Lattice, chi: int, m: nat): (env: Env)
    requires Lattices.Valid(lat) && m <= lat.nUnit
    ensures EnvSized(env, m)
  {
    var corner := seq(m, _ => Allocate([chi, chi]));
    Env(corner, corner, corner, corner,
        seq(m, i requires 0 <= i < m => Allocate(EdgeShape(chi, lat.virtualDims[i][1]))),
        seq(m, i requires 0 <= i < m => Allocate(EdgeShape(chi, lat.virtualDims[i][2]))),
        seq(m, i requires 0 <= i < m => Allocate(EdgeShape(chi, lat.virtualDims[i][3]))),
        seq(m, i requires 0 <= i < m => Allocate(EdgeShape(chi, lat.virtualDims[i][0]))))
  }

  /** The environment allocated at start-up. */
  function AllocatedEnv(lat: Lattice, chi: int): (env: Env)
    requires Lattices.Valid(lat)
    ensures EnvSized(env, lat.nUnit)
  {
    AllocatedUpTo(lat, chi, lat.nUnit)
  }

  /** The nine tensors site i gets, in the order they are pushed (`Kinds`). */
  function SiteAllocation(lat: Lattice, chi: int, i: int): (t: seq<Tensor>)
    requires Lattices.Valid(lat) && Site(lat, i)
    ensures |t| == |Kinds|
  {
    var v := lat.virtualDims[i];
    [Allocate(SiteShape(lat, i)),
     Allocate(EdgeShape(chi, v[1])), Allocate(EdgeShape(chi, v[2])), Allocate(EdgeShape(chi, v[3])), Allocate(EdgeShape(chi, v[0])),
     Allocate([chi, chi]), Allocate([chi, chi]), Allocate([chi, chi]), Allocate([chi, chi])]
  }

  lemma AllocatedGrows(lat: Lattice, chi: int, m: nat)
    requires Lattices.Valid(lat) && m < lat.nUnit
    ensures AllocatedUpTo(lat, chi, m + 1) == AddSite(AllocatedUpTo(lat, chi, m), SiteAllocation(lat, chi, m))
  {
    var a, b := AllocatedUpTo(lat, chi, m + 1), AddSite(AllocatedUpTo(lat, chi, m), SiteAllocation(lat, chi, m));
    assert a.c1 == b.c1 && a.eTt == b.eTt && a.eTr == b.eTr && a.eTb == b.eTb && a.eTl == b.eTl;
  }

  /** The shapes each site's tensors get: every corner CHI x CHI, the edge on
      side s the site's leg on side s, and a site tensor with as many entries
      as the mixed-radix index `nr` ranges over. */
  lemma AllocatedShapes(lat: Lattice, chi: int, i: int, c: Corner, s: Side)
    requires Lattices.Valid(lat) && Site(lat, i)
    ensures CornerAt(AllocatedEnv(lat, chi), c, i).shape == [chi, chi]
    ensures EdgeAt(AllocatedEnv(lat, chi), s, i).shape == EdgeShape(chi, lat.virtualDims[i][LegOfSide(s)])
    ensures var v := lat.virtualDims[i]; Prod(SiteShape(lat, i)) == v[0] * v[1] * v[2] * v[3] * lat.physicalDims[i]
  {
    var v := lat.virtualDims[i];
    SiteVolume(v[0], v[1], v[2], v[3], lat.physicalDims[i]);
  }

  /** `nr` numbers the entries of a site tensor one to one: it is the flat
      index, it lies below the number of entries, and different index tuples
      get different numbers. */
  lemma SiteEntryNumbering(lat: Lattice, i: int, ix: seq<int>, jx: seq<int>)
    requires Lattices.Valid(lat) && Site(lat, i)
    requires InRange(ix, SiteShape(lat, i)) && InRange(jx, SiteShape(lat, i))
    ensures var v := lat.virtualDims[i];
      FlatIndex(ix, SiteShape(lat, i))
        == ix[0] + ix[1] * v[0] + ix[2] * v[0] * v[1] + ix[3] * v[0] * v[1] * v[2] + ix[4] * v[0] * v[1] * v[2] * v[3]
    ensures 0 <= FlatIndex(ix, SiteShape(lat, i)) < Prod(SiteShape(lat, i))
    ensures FlatIndex(ix, SiteShape(lat, i)) == FlatIndex(jx, SiteShape(lat, i)) ==> ix == jx
  {
    var v, p := lat.virtualDims[i], lat.physicalDims[i];
    assert ix == [ix[0], ix[1], ix[2], ix[3], ix[4]];
    SiteFlatIndex(ix[0], ix[1], ix[2], ix[3], ix[4], v[0], v[1], v[2], v[3], p);
    FlatIndexBounds(ix, SiteShape(lat, i));
    UnflattenFlatIndex(ix, SiteShape(lat, i));
    UnflattenFlatIndex(jx, SiteShape(lat, i));
  }

  /** The state the updates change and the checkpoint saves. */
  datatype State = State(tn: seq<Tensor>, env: Env, lambda: Lambda)

  predicate StateFits(lat: Lattice, s: State)
  {
    && |s.tn| == lat.nUnit && EnvSized(s.env, lat.nUnit) && |s.lambda| == lat.nUnit
    && forall i :: 0 <= i < lat.nUnit ==> |s.lambda[i]| == NLeg
  }

  /** The site tensors and the identities of sites [0, m). */
  function AllocatedSites(lat: Lattice, m: nat): (tn: seq<Tensor>)
    requires Lattices.Valid(lat) && m <= lat.nUnit
    ensures |tn| == m && forall i :: 0 <= i < m ==> tn[i] == Allocate(SiteShape(lat, i))
  {
    seq(m, i requires 0 <= i < m => Allocate(SiteShape(lat, i)))
  }

  function Identities(lat: Lattice, m: nat): (ids: seq<Tensor>)
    requires Lattices.Valid(lat) && m <= lat.nUnit
    ensures |ids| == m && forall i :: 0 <= i < m ==> ids[i] == IdentityOp(lat.physicalDims[i])
  {
    seq(m, i requires 0 <= i < m => IdentityOp(lat.physicalDims[i]))
  }

  /** The lambdas of one site at start-up: vdim[j] values 1.0 on leg j. */
  method InitialSiteLambda(vdims: seq<seq<int>>, i: int) returns (site: seq<seq<real>>)
    requires DimsShaped(vdims) && 0 <= i < |vdims|
    ensures site == InitialLambda(vdims)[i]
  {
    var vdim := vdims[i];
    site := [];
    for j := 0 to NLeg
      invariant site == InitialLambda(vdims)[i][..j]
    {
      site := site + [seq(vdim[j], _ => 1.0)];
      assert InitialLambda(vdims)[i][..j + 1] == InitialLambda(vdims)[i][..j] + [InitialLambda(vdims)[i][j]];
    }
  }

  /** What one site gets: its nine tensors (pushed in `Kinds` order), its
      lambdas and its identity. */
  method AllocateSite(lat: Lattice, chi: int, i: int) returns (t: seq<Tensor>, site: seq<seq<real>>, id: Tensor)
    requires Lattices.Valid(lat) && Site(lat, i)
    ensures t == SiteAllocation(lat, chi, i)
    ensures site == InitialLambda(lat.virtualDims)[i]
    ensures id == IdentityOp(lat.physicalDims[i])
  {
    var pdim, vdim := lat.physicalDims[i], lat.virtualDims[i];
    t := [Allocate([vdim[0], vdim[1], vdim[2], vdim[3], pdim]),
          Allocate([chi, chi, vdim[1], vdim[1]]), Allocate([chi, chi, vdim[2], vdim[2]]),
          Allocate([chi, chi, vdim[3], vdim[3]]), Allocate([chi, chi, vdim[0], vdim[0]]),
          Allocate([chi, chi]), Allocate([chi, chi]), Allocate([chi, chi]), Allocate([chi, chi])];
    site := InitialSiteLambda(lat.virtualDims, i);
    id := IdentityOp(pdim);
  }

  lemma StartUpGrows(lat: Lattice, i: nat)
    requires Lattices.Valid(lat) && i < lat.nUnit
    ensures AllocatedSites(lat, i + 1) == AllocatedSites(lat, i) + [Allocate(SiteShape(lat, i))]
    ensures Identities(lat, i + 1) == Identities(lat, i) + [IdentityOp(lat.physicalDims[i])]
    ensures InitialLambda(lat.virtualDims)[..i + 1] == InitialLambda(lat.virtualDims)[..i] + [InitialLambda(lat.virtualDims)[i]]
  {
  }

  /** initialize_tensors without a load directory: every site gets its
      allocated tensors, lambdas of 1.0 and the identity on its physical leg.
      The random initial entries are not modelled. */
  method AllocateTensors(lat: Lattice, chi: int) returns (s: State, ids: seq<Tensor>)
    requires Lattices.Valid(lat)
    ensures s.tn == AllocatedSites(lat, lat.nUnit)
    ensures s.env == AllocatedEnv(lat, chi)
    ensures s.lambda == InitialLambda(lat.virtualDims)
    ensures ids == Identities(lat, lat.nUnit)
  {
    var n := lat.nUnit;
    var tn: seq<Tensor> := [];
    var env := AllocatedUpTo(lat, chi, 0);
    var lambda: Lambda := [];
    ids := [];
    for i := 0 to n
      invariant tn == AllocatedSites(lat, i) && ids == Identities(lat, i)
      invariant env == AllocatedUpTo(lat, chi, i)
      invariant lambda == InitialLambda(lat.virtualDims)[..i]
    {
      var t, site, id := AllocateSite(lat, chi, i);
      AllocatedGrows(lat, chi, i);
      StartUpGrows(lat, i);
      tn := tn + [t[0]];
      env := AddSite(env, t);
      lambda := lambda + [site];
      ids := ids + [id];
    }
    assert InitialLambda(lat.virtualDims)[..n] == InitialLambda(lat.virtualDims);
    s := State(tn, env, lambda);
  }

  // ---------------------------------------------------------------------------
  // Simple update
  // ---------------------------------------------------------------------------

  /** A gate fits the unit cell: its source is a site and its leg one of the four. */
  predicate GateFits(lat: Lattice, up: NNOperator)
  {
    Site(lat, up.sourceSite) && 0 <= up.sourceLeg < NLeg
  }

  predicate GatesFit(lat: Lattice, ups: seq<NNOperator>)
  {
    forall k :: 0 <= k < |ups| ==> GateFits(lat, ups[k])
  }

  /** The site across the gate's bond. */
  function TargetOf(lat: Lattice, up: NNOperator): (t: int)
    requires Lattices.Valid(lat) && GateFits(lat, up)
    ensures Site(lat, t)
  {
    lat.neighbor(up.sourceSite, up.sourceLeg)
  }

  /** What Simple_update_bond hands back: the two new site tensors and the new
      spectrum of the bond. */
  datatype SimpleResult = SimpleResult(source: Tensor, target: Tensor, lambda: seq<real>)

  /** Simple_update_bond(source tensor, target tensor, source lambdas,
      target lambdas, gate, source leg), numerical code the model does not
      interpret. */
  type SimpleKernel = (Tensor, Tensor, seq<seq<real>>, seq<seq<real>>, Tensor, int) -> SimpleResult

  function SimpleKernelAt(lat: Lattice, su: SimpleKernel, s: State, up: NNOperator): SimpleResult
    requires Lattices.Valid(lat) && StateFits(lat, s) && GateFits(lat, up)
  {
    var target := TargetOf(lat, up);
    su(s.tn[up.sourceSite], s.tn[target], s.lambda[up.sourceSite], s.lambda[target], up.op, up.sourceLeg)
  }

  /** One gate of the simple update. The new spectrum is written on the source
      leg and on the target's opposite leg, so both ends of the bond carry it
      even when source and target are the same site; the target tensor is
      written last; the environment and every other lambda and tensor are left
      alone. */
  function SimpleBond(lat: Lattice, su: SimpleKernel, s: State, up: NNOperator): (s': State)
    requires Lattices.Valid(lat) && StateFits(lat, s) && GateFits(lat, up)
    ensures StateFits(lat, s') && s'.env == s.env
    ensures var res, source, leg, target := SimpleKernelAt(lat, su, s, up), up.sourceSite, up.sourceLeg, TargetOf(lat, up);
      && s'.lambda[source][leg] == res.lambda && s'.lambda[target][OppositeLeg(leg)] == res.lambda
      && s'.tn[target] == res.target && (source != target ==> s'.tn[source] == res.source)
      && (forall i, j :: Site(lat, i) && 0 <= j < NLeg && !(i == source && j == leg) && !(i == target && j == OppositeLeg(leg))
            ==> s'.lambda[i][j] == s.lambda[i][j])
      && (forall i :: Site(lat, i) && i != source && i != target ==> s'.tn[i] == s.tn[i] && s'.lambda[i] == s.lambda[i])
  {
    var res, source, leg, target := SimpleKernelAt(lat, su, s, up), up.sourceSite, up.sourceLeg, TargetOf(lat, up);
    var lam := s.lambda[source := s.lambda[source][leg := res.lambda]];
    State(s.tn[source := res.source][target := res.target], s.env,
          lam[target := lam[target][OppositeLeg(leg) := res.lambda]])
  }

  /** The gates applied in order. */
  function SimpleSweep(lat: Lattice, su: SimpleKernel, s: State, ups: seq<NNOperator>): (s': State)
    requires Lattices.Valid(lat) && StateFits(lat, s) && GatesFit(lat, ups)
    ensures StateFits(lat, s')
    decreases |ups|
  {
    if ups == [] then s
    else SimpleBond(lat, su, SimpleSweep(lat, su, s, ups[..|ups| - 1]), ups[|ups| - 1])
  }

  /** No gate has site i at either end of its bond. */
  predicate Untouched(lat: Lattice, ups: seq<NNOperator>, i: int)
    requires Lattices.Valid(lat) && GatesFit(lat, ups)
  {
    forall k :: 0 <= k < |ups| ==> ups[k].sourceSite != i && TargetOf(lat, ups[k]) != i
  }

  lemma {:induction false} SimpleSweepFrame(lat: Lattice, su: SimpleKernel, s: State, ups: seq<NNOperator>, i: int)
    requires Lattices.Valid(lat) && StateFits(lat, s) && GatesFit(lat, ups) && Site(lat, i)
    ensures SimpleSweep(lat, su, s, ups).env == s.env
    ensures Untouched(lat, ups, i) ==>
      SimpleSweep(lat, su, s, ups).tn[i] == s.tn[i] && SimpleSweep(lat, su, s, ups).lambda[i] == s.lambda[i]
    decreases |ups|
  {
    if ups != [] {
      var init := ups[..|ups| - 1];
      SimpleSweepFrame(lat, su, s, init, i);
      if Untouched(lat, ups, i) {
        assert Untouched(lat, init, i);
      }
    }
  }

  /** The gates of n sweeps, one after the other. */
  function Repeat(lat: Lattice, ups: seq<NNOperator>, n: nat): (r: seq<NNOperator>)
    requires Lattices.Valid(lat) && GatesFit(lat, ups)
    ensures GatesFit(lat, r) && |r| == n * |ups|
  {
    if n == 0 then [] else Repeat(lat, ups, n - 1) + ups
  }

  lemma {:induction false} RepeatUntouched(lat: Lattice, ups: seq<NNOperator>, n: nat, i: int)
    requires Lattices.Valid(lat) && GatesFit(lat, ups) && Untouched(lat, ups, i)
    ensures Untouched(lat, Repeat(lat, ups, n), i)
  {
    if n > 0 {
      RepeatUntouched(lat, ups, n - 1, i);
      var r := Repeat(lat, ups, n);
      forall k | 0 <= k < |r|
        ensures r[k].sourceSite != i && TargetOf(lat, r[k]) != i
      {
        var m := |Repeat(lat, ups, n - 1)|;
        if k >= m {
          assert r[k] == ups[k - m];
        }
      }
    }
  }

  /** num_simple_step sweeps. */
  function SimpleUpdated(lat: Lattice, su: SimpleKernel, s: State, ups: seq<NNOperator>, n: nat): (s': State)
    requires Lattices.Valid(lat) && StateFits(lat, s) && GatesFit(lat, ups)
    ensures StateFits(lat, s')
    ensures n == 0 ==> s' == s
  {
    SimpleSweep(lat, su, s, Repeat(lat, ups, n))
  }

  /** The simple update never touches the environment, and a site no gate
      reaches keeps its tensor and its lambdas through any number of steps. */
  lemma SimpleUpdatedFrame(lat: Lattice, su: SimpleKernel, s: State, ups: seq<NNOperator>, n: nat, i: int)
    requires Lattices.Valid(lat) && StateFits(lat, s) && GatesFit(lat, ups) && Site(lat, i)
    ensures SimpleUpdated(lat, su, s, ups, n).env == s.env
    ensures Untouched(lat, ups, i) ==>
      SimpleUpdated(lat, su, s, ups, n).tn[i] == s.tn[i] && SimpleUpdated(lat, su, s, ups, n).lambda[i] == s.lambda[i]
  {
    SimpleSweepFrame(lat, su, s, Repeat(lat, ups, n), i);
    if Untouched(lat, ups, i) {
      RepeatUntouched(lat, ups, n, i);
    }
  }

  /** The dimension of a bond is the same seen from either end. */
  ghost predicate BondDimsAgree(lat: Lattice)
    requires Lattices.Valid(lat)
  {
    forall i, leg :: Site(lat, i) && 0 <= leg < NLeg ==>
      lat.virtualDims[lat.neighbor(i, leg)][OppositeLeg(leg)] == lat.virtualDims[i][leg]
  }

  /** Writing the one spectrum at both ends keeps every lambda as long as its
      leg, given a spectrum as long as the bond. */
  lemma SimpleBondKeepsShape(lat: Lattice, su: SimpleKernel, s: State, up: NNOperator)
    requires Lattices.Valid(lat) && StateFits(lat, s) && GateFits(lat, up) && BondDimsAgree(lat)
    requires LambdaShaped(s.lambda, lat.virtualDims)
    requires |SimpleKernelAt(lat, su, s, up).lambda| == lat.virtualDims[up.sourceSite][up.sourceLeg]
    ensures LambdaShaped(SimpleBond(lat, su, s, up).lambda, lat.virtualDims)
  {
    var s' := SimpleBond(lat, su, s, up);
    var source, leg, target := up.sourceSite, up.sourceLeg, TargetOf(lat, up);
    forall i | 0 <= i < |s'.lambda|
      ensures PartsSized(s'.lambda[i], lat.virtualDims[i])
    {
      forall j | 0 <= j < NLeg
        ensures |s'.lambda[i][j]| == lat.virtualDims[i][j]
      {
        if i == target && j == OppositeLeg(leg) {
        } else if i == source && j == leg {
        } else {
          assert s'.lambda[i][j] == s.lambda[i][j];
        }
      }
    }
  }

  /** The kernel hands back a spectrum as long as the lambda it was given
      on the source leg (the truncated SVD keeps the bond dimension). */
  ghost predicate KeepsBondLength(su: SimpleKernel)
  {
    forall t1, t2, l1, l2, op, leg :: 0 <= leg < |l1| ==> |su(t1, t2, l1, l2, op, leg).lambda| == |l1[leg]|
  }

  /** Hence every lambda stays as long as its leg through a whole sequence of
      gates. */
  lemma {:induction false} SimpleSweepKeepsShape(lat: Lattice, su: SimpleKernel, s: State, ups: seq<NNOperator>)
    requires Lattices.Valid(lat) && StateFits(lat, s) && GatesFit(lat, ups) && BondDimsAgree(lat)
    requires KeepsBondLength(su) && LambdaShaped(s.lambda, lat.virtualDims)
    ensures LambdaShaped(SimpleSweep(lat, su, s, ups).lambda, lat.virtualDims)
    decreases |ups|
  {
    if ups != [] {
      var init, up := ups[..|ups| - 1], ups[|ups| - 1];
      SimpleSweepKeepsShape(lat, su, s, init);
      var mid := SimpleSweep(lat, su, s, init);
      assert |mid.lambda[up.sourceSite]| == NLeg;
      assert |SimpleKernelAt(lat, su, mid, up).lambda| == |mid.lambda[up.sourceSite][up.sourceLeg]|;
      SimpleBondKeepsShape(lat, su, mid, up);
    }
  }

  /** ... and through any number of simple-update steps. */
  lemma SimpleUpdatedKeepsShape(lat: Lattice, su: SimpleKernel, s: State, ups: seq<NNOperator>, n: nat)
    requires Lattices.Valid(lat) && StateFits(lat, s) && GatesFit(lat, ups) && BondDimsAgree(lat)
    requires KeepsBondLength(su) && LambdaShaped(s.lambda, lat.virtualDims)
    ensures LambdaShaped(SimpleUpdated(lat, su, s, ups, n).lambda, lat.virtualDims)
  {
    SimpleSweepKeepsShape(lat, su, s, Repeat(lat, ups, n));
  }

  // ---------------------------------------------------------------------------
  // Full update
  // ---------------------------------------------------------------------------

  /** What Full_update_bond hands back: the two new site tensors. */
  datatype FullResult = FullResult(source: Tensor, target: Tensor)

  /** The numerical code of the full update: Full_update_bond (four corners
      and six edges in the kernel's order, source tensor, target tensor,
      gate, source leg), a CTM pass, and the directional moves. */
  datatype FullNumerics = FullNumerics(
    bond: (seq<Tensor>, seq<Tensor>, Tensor, Tensor, Tensor, int) -> FullResult,
    ctm: (Env, seq<Tensor>) -> Env,
    move: (Direction, int, Env, seq<Tensor>) -> Env)

  /** The CTM pass and the moves hand back an environment for as many sites. */
  ghost predicate KeepsSize(nm: FullNumerics, n: int)
  {
    && (forall e, t :: EnvSized(e, n) ==> EnvSized(nm.ctm(e, t), n))
    && (forall d, line, e, t :: EnvSized(e, n) ==> EnvSized(nm.move(d, line, e, t), n))
  }

  lemma {:induction false} RefreshesKeepSize(nm: FullNumerics, n: int, env: Env, tn: seq<Tensor>, rs: seq<Refresh>)
    requires KeepsSize(nm, n) && EnvSized(env, n)
    ensures EnvSized(ApplyRefreshes(env, tn, rs, nm.ctm, nm.move), n)
    decreases |rs|
  {
    if rs != [] {
      var env' := match rs[0]
                  case FullCTM => nm.ctm(env, tn)
                  case Move(d, line) => nm.move(d, line, env, tn);
      RefreshesKeepSize(nm, n, env', tn, rs[1..]);
    }
  }

  function SiteOf(role: Role, source: int, target: int): int
  {
    if role == Source then source else target
  }

  /** The corner and edge tensors handed to the bond kernel, read off the
      orientation table for the bond's leg. */
  function FullArgs(env: Env, n: int, leg: int, source: int, target: int): (args: (seq<Tensor>, seq<Tensor>))
    requires EnvSized(env, n) && 0 <= source < n && 0 <= target < n && 0 <= leg < NLeg
    ensures |args.0| == 4 && |args.1| == 6
    ensures var o := OrientationOf(leg);
      && (forall k :: 0 <= k < 4 ==> args.0[k] == CornerAt(env, o.corners[k].corner, SiteOf(o.corners[k].role, source, target)))
      && (forall k :: 0 <= k < 6 ==> args.1[k] == EdgeAt(env, o.edges[k].side, SiteOf(o.edges[k].role, source, target)))
  {
    var o := OrientationOf(leg);
    (seq(4, k requires 0 <= k < 4 => CornerAt(env, o.corners[k].corner, SiteOf(o.corners[k].role, source, target))),
     seq(6, k requires 0 <= k < 6 => EdgeAt(env, o.edges[k].side, SiteOf(o.edges[k].role, source, target))))
  }

  function FullKernelAt(lat: Lattice, nm: FullNumerics, s: State, up: NNOperator): FullResult
    requires Lattices.Valid(lat) && StateFits(lat, s) && GateFits(lat, up)
  {
    var source, leg, target := up.sourceSite, up.sourceLeg, TargetOf(lat, up);
    var args := FullArgs(s.env, lat.nUnit, leg, source, target);
    nm.bond(args.0, args.1, s.tn[source], s.tn[target], up.op, leg)
  }

  /** The refreshes after one bond: with the fast update the two columns
      (horizontal bond) or the two rows (vertical bond) of its sites,
      otherwise a full CTM pass. */
  function FullRefreshes(lat: Lattice, fast: bool, up: NNOperator): seq<Refresh>
    requires Lattices.Valid(lat) && GateFits(lat, up)
  {
    BondRefreshes(fast, IsHorizontal(up.sourceLeg), up.sourceSite, TargetOf(lat, up), lat.LX)
  }

  /** With sites numbered row by row, the fast update refreshes by a left
      move the column of the source and then by a right move the column of
      the target (horizontal bond), or by a top move the row of the source and
      then by a bottom move the row of the target (vertical bond), each line
      inside the unit cell; without it, one full CTM pass runs. */
  lemma FastRefreshLines(lat: Lattice, fast: bool, up: NNOperator)
    requires Lattices.Valid(lat) && Lattices.RowMajor(lat) && GateFits(lat, up)
    ensures var rs, source, target := FullRefreshes(lat, fast, up), up.sourceSite, TargetOf(lat, up);
      && (!fast ==> rs == [FullCTM])
      && (fast && IsHorizontal(up.sourceLeg) ==> rs == [Move(LeftMove, lat.x(source)), Move(RightMove, lat.x(target))])
      && (fast && !IsHorizontal(up.sourceLeg) ==> rs == [Move(TopMove, lat.y(source)), Move(BottomMove, lat.y(target))])
      && (forall r :: r in rs && r.Move? && IsHorizontal(up.sourceLeg) ==> 0 <= r.line < lat.LX)
      && (forall r :: r in rs && r.Move? && !IsHorizontal(up.sourceLeg) ==> 0 <= r.line < lat.LY)
  {
    var source, target := up.sourceSite, TargetOf(lat, up);
    assert lat.x(source) == source % lat.LX && lat.y(source) == source / lat.LX;
    assert lat.x(target) == target % lat.LX && lat.y(target) == target / lat.LX;
    BondRefreshLines(fast, IsHorizontal(up.sourceLeg), source, target, lat.LX, lat.LY);
  }

  /** One gate of the full update: the kernel reads the environment as it
      stands, the two tensors are written (the target last), and the
      environment is then refreshed from the new tensors. The lambdas are
      not touched. */
  function FullBond(lat: Lattice, nm: FullNumerics, fast: bool, s: State, up: NNOperator): (s': State)
    requires Lattices.Valid(lat) && StateFits(lat, s) && GateFits(lat, up) && KeepsSize(nm, lat.nUnit)
    ensures StateFits(lat, s') && s'.lambda == s.lambda
    ensures var res, source, target := FullKernelAt(lat, nm, s, up), up.sourceSite, TargetOf(lat, up);
      && s'.tn[target] == res.target && (source != target ==> s'.tn[source] == res.source)
      && (forall i :: Site(lat, i) && i != source && i != target ==> s'.tn[i] == s.tn[i])
      && s'.env == ApplyRefreshes(s.env, s'.tn, FullRefreshes(lat, fast, up), nm.ctm, nm.move)
  {
    var res, source, target := FullKernelAt(lat, nm, s, up), up.sourceSite, TargetOf(lat, up);
    var tn := s.tn[source := res.source][target := res.target];
    RefreshesKeepSize(nm, lat.nUnit, s.env, tn, FullRefreshes(lat, fast, up));
    State(tn, ApplyRefreshes(s.env, tn, FullRefreshes(lat, fast, up), nm.ctm, nm.move), s.lambda)
  }

  /** What the full update's loops need: a valid lattice, gates that fit,
      and numerics that keep the environment's size. */
  ghost predicate FullReady(lat: Lattice, nm: FullNumerics, ups: seq<NNOperator>)
  {
    Lattices.Valid(lat) && GatesFit(lat, ups) && KeepsSize(nm, lat.nUnit)
  }

  function FullSweep(lat: Lattice, nm: FullNumerics, fast: bool, s: State, ups: seq<NNOperator>): (s': State)
    requires FullReady(lat, nm, ups) && StateFits(lat, s)
    ensures StateFits(lat, s')
    decreases |ups|
  {
    if ups == [] then s
    else FullBond(lat, nm, fast, FullSweep(lat, nm, fast, s, ups[..|ups| - 1]), ups[|ups| - 1])
  }

  /** The state the sweeps start from: one CTM pass first when there is at
      least one step. */
  function FullStart(nm: FullNumerics, s: State, n: nat): State
  {
    if n == 0 then s else State(s.tn, nm.ctm(s.env, s.tn), s.lambda)
  }

  /** num_full_step sweeps after the initial CTM pass. */
  function FullUpdated(lat: Lattice, nm: FullNumerics, fast: bool, s: State, ups: seq<NNOperator>, n: nat): (s': State)
    requires FullReady(lat, nm, ups) && StateFits(lat, s)
    ensures StateFits(lat, s') && (n == 0 ==> s' == s)
  {
    FullSweep(lat, nm, fast, FullStart(nm, s, n), Repeat(lat, ups, n))
  }

  lemma FullBondFrame(lat: Lattice, nm: FullNumerics, fast: bool, s: State, up: NNOperator, i: int)
    requires Lattices.Valid(lat) && StateFits(lat, s) && GateFits(lat, up) && KeepsSize(nm, lat.nUnit) && Site(lat, i)
    ensures FullBond(lat, nm, fast, s, up).lambda == s.lambda
    ensures i != up.sourceSite && i != TargetOf(lat, up) ==> FullBond(lat, nm, fast, s, up).tn[i] == s.tn[i]
  {
  }

  lemma {:induction false} FullSweepFrame(lat: Lattice, nm: FullNumerics, fast: bool, s: State, ups: seq<NNOperator>, i: int)
    requires FullReady(lat, nm, ups) && StateFits(lat, s) && Site(lat, i)
    ensures FullSweep(lat, nm, fast, s, ups).lambda == s.lambda
    ensures Untouched(lat, ups, i) ==> FullSweep(lat, nm, fast, s, ups).tn[i] == s.tn[i]
    decreases |ups|
  {
    if ups != [] {
      var init, up := ups[..|ups| - 1], ups[|ups| - 1];
      var mid := FullSweep(lat, nm, fast, s, init);
      FullSweepFrame(lat, nm, fast, s, init, i);
      FullBondFrame(lat, nm, fast, mid, up, i);
      if Untouched(lat, ups, i) {
        assert Untouched(lat, init, i);
        assert up.sourceSite != i && TargetOf(lat, up) != i;
      }
    }
  }

  /** The full update never changes the lambdas, and a site no gate reaches
      keeps its tensor (its environment does change, by the refreshes). */
  lemma FullUpdatedFrame(lat: Lattice, nm: FullNumerics, fast: bool, s: State, ups: seq<NNOperator>, n: nat, i: int)
    requires FullReady(lat, nm, ups) && StateFits(lat, s) && Site(lat, i)
    ensures FullUpdated(lat, nm, fast, s, ups, n).lambda == s.lambda
    ensures Untouched(lat, ups, i) ==> FullUpdated(lat, nm, fast, s, ups, n).tn[i] == s.tn[i]
  {
    FullSweepFrame(lat, nm, fast, FullStart(nm, s, n), Repeat(lat, ups, n), i);
    if Untouched(lat, ups, i) {
      RepeatUntouched(lat, ups, n, i);
    }
  }

  /** The switch on the source leg: each case names the ten environment
      tensors for its direction; the result is the kernel applied to the
      orientation table's arguments. */
  method BondKernelCall(nm: FullNumerics, env: Env, tn: seq<Tensor>, leg: int, source: int, target: int, op: Tensor)
    returns (res: FullResult)
    requires EnvSized(env, |tn|) && 0 <= source < |tn| && 0 <= target < |tn| && 0 <= leg < NLeg
    ensures var args := FullArgs(env, |tn|, leg, source, target);
      res == nm.bond(args.0, args.1, tn[source], tn[target], op, leg)
  {
    var args := FullArgs(env, |tn|, leg, source, target);
    var corners: seq<Tensor>, edges: seq<Tensor>;
    if leg == 0 {
      corners := [env.c4[source], env.c2[target], env.c1[target], env.c3[source]];
      edges := [env.eTb[source], env.eTb[target], env.eTl[target], env.eTt[target], env.eTt[source], env.eTr[source]];
    } else if leg == 1 {
      corners := [env.c4[source], env.c1[target], env.c2[target], env.c3[source]];
      edges := [env.eTl[source], env.eTl[target], env.eTt[target], env.eTr[target], env.eTr[source], env.eTb[source]];
    } else if leg == 2 {
      corners := [env.c1[source], env.c2[target], env.c3[target], env.c4[source]];
      edges := [env.eTt[source], env.eTt[target], env.eTr[target], env.eTb[target], env.eTb[source], env.eTl[source]];
    } else {
      corners := [env.c2[source], env.c3[target], env.c4[target], env.c1[source]];
      edges := [env.eTr[source], env.eTr[target], env.eTb[target], env.eTl[target], env.eTl[source], env.eTt[source]];
    }
    assert corners == args.0 && edges == args.1;
    res := nm.bond(corners, edges, tn[source], tn[target], op, leg);
  }

  /** The refresh after a bond: left and right moves of the two columns for a
      horizontal bond, top and bottom moves of the two rows for a vertical
      one, or a full CTM pass without the fast update. */
  method RefreshAfterBond(nm: FullNumerics, fast: bool, leg: int, source: int, target: int, lx: int,
                          env: Env, tn: seq<Tensor>) returns (env': Env)
    requires lx > 0
    ensures env' == ApplyRefreshes(env, tn, BondRefreshes(fast, IsHorizontal(leg), source, target, lx), nm.ctm, nm.move)
  {
    var rs := BondRefreshes(fast, IsHorizontal(leg), source, target, lx);
    if fast {
      if IsHorizontal(leg) {
        env' := nm.move(LeftMove, source % lx, env, tn);
        env' := nm.move(RightMove, target % lx, env', tn);
      } else {
        env' := nm.move(TopMove, source / lx, env, tn);
        env' := nm.move(BottomMove, target / lx, env', tn);
      }
      assert rs[1..][1..] == [];
    } else {
      env' := nm.ctm(env, tn);
      assert rs[1..] == [];
    }
  }

  // ---------------------------------------------------------------------------
  // The solver object
  // ---------------------------------------------------------------------------

  lemma ValidDims(lat: Lattice)
    requires Lattices.Valid(lat)
    ensures DimsShaped(lat.virtualDims)
  {
    forall i | 0 <= i < |lat.virtualDims|
      ensures |lat.virtualDims[i]| == NLeg && NonNegative(lat.virtualDims[i])
    {
      assert forall j :: 0 <= j < NLeg ==> lat.virtualDims[i][j] > 0;
    }
  }

  class TeNeS {
    const lat: Lattice
    const chi: int
    const simpleUpdates: seq<NNOperator>
    const fullUpdates: seq<NNOperator>
    const onesiteOps: seq<Operator>
    const twositeOps: seq<Operator>

    var tn: seq<Tensor>
    var env: Env
    var lambda: Lambda
    var opIdentity: seq<Tensor>
    var numOnesite: int
    var numTwosite: int
    var siteOpsIndices: seq<seq<int>>

    /** Sizes agree with the unit cell, the gates fit it, the identities are
        the physical legs' identities, and the operator table holds, per site
        and group, the last operator assigned there (or -1). */
    ghost predicate Valid()
      reads this
    {
      && Lattices.Valid(lat)
      && GatesFit(lat, simpleUpdates) && GatesFit(lat, fullUpdates)
      && StateFits(lat, State(tn, env, lambda))
      && opIdentity == Identities(lat, lat.nUnit)
      && numOnesite >= 0 && numTwosite >= 0
      && OpsFit(onesiteOps, lat.nUnit, numOnesite)
      && TableShaped(siteOpsIndices, lat.nUnit, numOnesite)
      && (forall s, g :: 0 <= s < lat.nUnit && 0 <= g < numOnesite ==> siteOpsIndices[s][g] == LastIndex(onesiteOps, s, g))
    }

    /** The tensors, the environment and the lambdas. */
    function Current(): State
      reads this
    {
      State(tn, env, lambda)
    }

    /** What is fixed once the object is built. */
    ghost function Setup(): (seq<Tensor>, int, int, seq<seq<int>>)
      reads this
    {
      (opIdentity, numOnesite, numTwosite, siteOpsIndices)
    }

    /** The constructor without a load directory: allocation, then the group
        counts and the operator table. Every one-site operator must name a
        site of the unit cell and a non-negative group, since the table is
        indexed by both. */
    constructor (lat: Lattice, chi: int, simpleUpdates: seq<NNOperator>, fullUpdates: seq<NNOperator>,
                 onesiteOps: seq<Operator>, twositeOps: seq<Operator>)
      requires Lattices.Valid(lat) && GatesFit(lat, simpleUpdates) && GatesFit(lat, fullUpdates)
      requires forall k :: 0 <= k < |onesiteOps| ==> Site(lat, onesiteOps[k].sourceSite) && onesiteOps[k].group >= 0
      ensures Valid()
      ensures this.lat == lat && this.chi == chi && this.simpleUpdates == simpleUpdates && this.fullUpdates == fullUpdates
      ensures this.onesiteOps == onesiteOps && this.twositeOps == twositeOps
      ensures Current() == State(AllocatedSites(lat, lat.nUnit), AllocatedEnv(lat, chi), InitialLambda(lat.virtualDims))
      ensures LambdaShaped(lambda, lat.virtualDims)
      ensures forall k :: 0 <= k < |onesiteOps| ==> onesiteOps[k].group < numOnesite
      ensures numOnesite == 0 || exists k :: 0 <= k < |onesiteOps| && onesiteOps[k].group == numOnesite - 1
      ensures forall k :: 0 <= k < |twositeOps| ==> twositeOps[k].group < numTwosite
      ensures numTwosite == 0 || exists k :: 0 <= k < |twositeOps| && twositeOps[k].group == numTwosite - 1
    {
      this.lat, this.chi := lat, chi;
      this.simpleUpdates, this.fullUpdates := simpleUpdates, fullUpdates;
      this.onesiteOps, this.twositeOps := onesiteOps, twositeOps;
      var s, ids := AllocateTensors(lat, chi);
      var n1 := CountGroups(onesiteOps);
      var n2 := CountGroups(twositeOps);
      var table := BuildSiteOpsIndices(onesiteOps, lat.nUnit, n1);
      tn, env, lambda, opIdentity := s.tn, s.env, s.lambda, ids;
      numOnesite, numTwosite, siteOpsIndices := n1, n2, table;
      ValidDims(lat);
    }

    /** The load branch of the start-up: on success every tensor and lambda
        comes from the checkpoint; on failure nothing changes. */
    method Load(disk: Disk, dir: string) returns (r: Outcome<Loaded>)
      requires Valid()
      modifies this
      ensures Valid() && Setup() == old(Setup())
      ensures dir !in disk.dirs ==> r == Failure(dir + " does not exists.")
      ensures r.Success? <==> dir in disk.dirs && AllTensorFiles(disk, dir, lat.nUnit)
      ensures r.Success? ==> Current() == State(FileSites(disk, dir, lat.nUnit), FileEnv(disk, dir, lat.nUnit),
                                                LoadedLambda(LambdaTexts(disk, dir, lat.nUnit), lat.virtualDims))
      ensures r.Failure? ==> Current() == old(Current())
      ensures r.Success? ==> LambdaShaped(lambda, lat.virtualDims)
    {
      ValidDims(lat);
      r := LoadTensors(disk, dir, lat.nUnit, lat.virtualDims);
      if r.Success? {
        tn, env, lambda := r.value.tn, r.value.env, r.value.lambda;
        EntryShape(LambdaTexts(disk, dir, lat.nUnit), lat.virtualDims);
      }
    }

    /** One gate of the simple update, in place. */
    method SimpleGate(su: SimpleKernel, up: NNOperator)
      requires Valid() && GateFits(lat, up)
      modifies this
      ensures Valid() && Setup() == old(Setup())
      ensures Current() == SimpleBond(lat, su, old(Current()), up)
    {
      var source, leg := up.sourceSite, up.sourceLeg;
      var target := lat.neighbor(source, leg);
      var targetLeg := (leg + 2) % 4;
      var res := su(tn[source], tn[target], lambda[source], lambda[target], up.op, leg);
      lambda := lambda[source := lambda[source][leg := res.lambda]];
      lambda := lambda[target := lambda[target][targetLeg := res.lambda]];
      tn := tn[source := res.source];
      tn := tn[target := res.target];
    }

    /** One sweep: every gate in order. */
    method SimpleSweepGates(su: SimpleKernel, ghost s0: State, ghost done: seq<NNOperator>)
      requires Valid() && StateFits(lat, s0) && GatesFit(lat, done)
      requires Current() == SimpleSweep(lat, su, s0, done)
      modifies this
      ensures Valid() && Setup() == old(Setup())
      ensures Current() == SimpleSweep(lat, su, s0, done + simpleUpdates)
    {
      ghost var sofar := done;
      for u := 0 to |simpleUpdates|
        invariant sofar == done + simpleUpdates[..u] && GatesFit(lat, sofar)
        invariant Valid() && Setup() == old(Setup())
        invariant Current() == SimpleSweep(lat, su, s0, sofar)
      {
        SimpleSweepSnoc(lat, su, s0, sofar, simpleUpdates[u]);
        SimpleGate(su, simpleUpdates[u]);
        SweepPrefix(done, simpleUpdates, u);
        sofar := sofar + [simpleUpdates[u]];
      }
      assert simpleUpdates[..|simpleUpdates|] == simpleUpdates;
    }

    /** simple_update: num_simple_step sweeps over the gates. */
    method SimpleUpdate(su: SimpleKernel, nsteps: int)
      requires Valid()
      modifies this
      ensures Valid() && Setup() == old(Setup())
      ensures Current() == SimpleUpdated(lat, su, old(Current()), simpleUpdates, if nsteps < 0 then 0 else nsteps)
      ensures KeepsBondLength(su) && BondDimsAgree(lat) && LambdaShaped(old(lambda), lat.virtualDims) ==>
                LambdaShaped(lambda, lat.virtualDims)
    {
      ghost var s0 := Current();
      var tau := 0;
      while tau < nsteps
        invariant 0 <= tau <= (if nsteps < 0 then 0 else nsteps)
        invariant Valid() && Setup() == old(Setup())
        invariant Current() == SimpleSweep(lat, su, s0, Repeat(lat, simpleUpdates, tau))
      {
        ghost var before, done := tau, Repeat(lat, simpleUpdates, tau);
        SimpleSweepGates(su, s0, done);
        assert Repeat(lat, simpleUpdates, before + 1) == done + simpleUpdates;
        tau := tau + 1;
        assert Current() == SimpleSweep(lat, su, s0, Repeat(lat, simpleUpdates, before + 1));
      }
      assert tau == (if nsteps < 0 then 0 else nsteps);
      assert SimpleUpdated(lat, su, s0, simpleUpdates, tau) == SimpleSweep(lat, su, s0, Repeat(lat, simpleUpdates, tau));
      ghost var fin := SimpleUpdated(lat, su, s0, simpleUpdates, tau);
      assert lambda == fin.lambda;
      if KeepsBondLength(su) && BondDimsAgree(lat) && LambdaShaped(s0.lambda, lat.virtualDims) {
        SimpleUpdatedKeepsShape(lat, su, s0, simpleUpdates, tau);
      }
    }

    /** One gate of the full update, in place: the kernel call through the
        switch on the leg, the two tensors, then the refresh. */
    method FullGate(nm: FullNumerics, fast: bool, up: NNOperator)
      requires Valid() && GateFits(lat, up) && KeepsSize(nm, lat.nUnit)
      modifies this
      ensures Valid() && Setup() == old(Setup())
      ensures Current() == FullBond(lat, nm, fast, old(Current()), up)
    {
      var source, leg := up.sourceSite, up.sourceLeg;
      var target := lat.neighbor(source, leg);
      var res := BondKernelCall(nm, env, tn, leg, source, target, up.op);
      tn := tn[source := res.source];
      tn := tn[target := res.target];
      env := RefreshAfterBond(nm, fast, leg, source, target, lat.LX, env, tn);
    }

    method FullSweepGates(nm: FullNumerics, fast: bool, ghost s0: State, ghost done: seq<NNOperator>)
      requires Valid() && KeepsSize(nm, lat.nUnit) && StateFits(lat, s0) && GatesFit(lat, done)
      requires Current() == FullSweep(lat, nm, fast, s0, done)
      modifies this
      ensures Valid() && Setup() == old(Setup())
      ensures Current() == FullSweep(lat, nm, fast, s0, done + fullUpdates)
    {
      ghost var sofar := done;
      for u := 0 to |fullUpdates|
        invariant sofar == done + fullUpdates[..u] && GatesFit(lat, sofar)
        invariant Valid() && Setup() == old(Setup())
        invariant Current() == FullSweep(lat, nm, fast, s0, sofar)
      {
        FullSweepSnoc(lat, nm, fast, s0, sofar, fullUpdates[u]);
        FullGate(nm, fast, fullUpdates[u]);
        SweepPrefix(done, fullUpdates, u);
        sofar := sofar + [fullUpdates[u]];
      }
      assert fullUpdates[..|fullUpdates|] == fullUpdates;
    }

    /** full_update: one CTM pass when there is a step to do, then
        num_full_step sweeps over the gates. */
    method FullUpdate(nm: FullNumerics, fast: bool, nsteps: int)
      requires Valid() && KeepsSize(nm, lat.nUnit)
      modifies this
      ensures Valid() && Setup() == old(Setup())
      ensures Current() == FullUpdated(lat, nm, fast, old(Current()), fullUpdates, if nsteps < 0 then 0 else nsteps)
    {
      ghost var n: nat := if nsteps < 0 then 0 else nsteps;
      ghost var start := Current();
      if nsteps > 0 {
        env := nm.ctm(env, tn);
      }
      ghost var s0 := Current();
      assert s0 == FullStart(nm, start, n);
      var tau := 0;
      while tau < nsteps
        invariant 0 <= tau <= (if nsteps < 0 then 0 else nsteps)
        invariant Valid() && Setup() == old(Setup())
        invariant Current() == FullSweep(lat, nm, fast, s0, Repeat(lat, fullUpdates, tau))
      {
        ghost var before, done := tau, Repeat(lat, fullUpdates, tau);
        FullSweepGates(nm, fast, s0, done);
        assert Repeat(lat, fullUpdates, before + 1) == done + fullUpdates;
        tau := tau + 1;
        assert Current() == FullSweep(lat, nm, fast, s0, Repeat(lat, fullUpdates, before + 1));
      }
      assert tau == n;
      assert FullUpdated(lat, nm, fast, start, fullUpdates, n) == FullSweep(lat, nm, fast, s0, Repeat(lat, fullUpdates, n));
    }

    /** measure_onesite on the current state. */
    method MeasureOnesite(contract: (OneSite.SiteEnv, Tensor) -> Value) returns (obs: seq<seq<OneSite.Option<Observed>>>)
      requires Valid()
      ensures OneSite.TableOf(obs, numOnesite, lat.nUnit)
      ensures forall g, i :: 0 <= g < numOnesite && 0 <= i < lat.nUnit ==>
                obs[g][i] == OneSite.OnesiteEntry(env, tn, opIdentity, onesiteOps, contract, g, i)
    {
      obs := OneSite.MeasureOnesite(env, tn, opIdentity, onesiteOps, numOnesite, contract);
    }

    function TwositeCtx(k: TwoSite.Kernels): TwoSite.Ctx
      reads this
    {
      TwoSite.Ctx(lat, env, tn, opIdentity, onesiteOps, siteOpsIndices, numOnesite, numTwosite, k, TwoSite.SiteTest)
    }

    /** measure_twosite on the current state. */
    method MeasureTwosite(k: TwoSite.Kernels) returns (ret: seq<map<Bond, Observed>>)
      requires Valid() && TwoSite.CtxValid(TwositeCtx(k)) && TwoSite.OpsReady(TwositeCtx(k), twositeOps)
      ensures ret == TwoSite.Fold(TwositeCtx(k), twositeOps).ret
      ensures (forall i :: 0 <= i < |twositeOps| ==> TwoSite.AdjacentEndsDistinct(TwositeCtx(k), twositeOps[i])) ==>
        && TwoSite.CtxValid(TwositeCtx(k).(rule := TwoSite.CellTest))
        && TwoSite.OpsReady(TwositeCtx(k).(rule := TwoSite.CellTest), twositeOps)
        && ret == TwoSite.Fold(TwositeCtx(k).(rule := TwoSite.CellTest), twositeOps).ret
    {
      var norms;
      ret, norms := TwoSite.MeasureTwosite(TwositeCtx(k), twositeOps);
      if forall i :: 0 <= i < |twositeOps| ==> TwoSite.AdjacentEndsDistinct(TwositeCtx(k), twositeOps[i]) {
        TwoSite.FoldRuleAgrees(TwositeCtx(k), twositeOps);
      }
    }

    function CorrCtx(param: Correlations.CorrelationParameter, k: Correlations.CorrKernels): Correlations.CorrCtx
      reads this
    {
      Correlations.CorrCtx(lat, env, tn, opIdentity, onesiteOps, siteOpsIndices, numOnesite, param, k)
    }

    /** measure_correlation on the current state. */
    method MeasureCorrelation(param: Correlations.CorrelationParameter, k: Correlations.CorrKernels)
      returns (correlations: seq<Correlations.Correlation>)
      requires Valid() && Correlations.PairsFit(param.operators, numOnesite)
      ensures correlations == Correlations.Records(CorrCtx(param, k), lat.nUnit)
    {
      correlations := Correlations.MeasureCorrelation(CorrCtx(param, k));
    }

    /** save_tensors on the current state. */
    method Save(disk0: Disk, dir: string, written: real -> real) returns (disk: Disk)
      requires Valid() && LambdaShaped(lambda, lat.virtualDims)
      ensures dir == "" ==> disk == disk0
      ensures dir != "" ==>
        && disk.dirs == disk0.dirs + {dir}
        && TensorsSaved(disk.tensors, dir, env, tn, lat.nUnit)
        && TensorFilesOnly(disk0.tensors, disk.tensors, dir, lat.nUnit)
        && LambdasSaved(disk.texts, dir, SavedLambda(lambda, written))
        && LambdaFilesOnly(disk0.texts, disk.texts, dir, lat.nUnit)
    {
      disk := SaveTensors(disk0, dir, env, tn, lambda, lat.virtualDims, written);
    }
  }

  /** Extending a sweep's prefix by one gate. */
  lemma SweepPrefix(done: seq<NNOperator>, ups: seq<NNOperator>, u: int)
    requires 0 <= u < |ups|
    ensures done + ups[..u + 1] == (done + ups[..u]) + [ups[u]]
  {
    assert ups[..u + 1] == ups[..u] + [ups[u]];
  }

  lemma SimpleSweepSnoc(lat: Lattice, su: SimpleKernel, s0: State, gates: seq<NNOperator>, up: NNOperator)
    requires Lattices.Valid(lat) && StateFits(lat, s0) && GatesFit(lat, gates) && GateFits(lat, up)
    ensures GatesFit(lat, gates + [up])
    ensures SimpleSweep(lat, su, s0, gates + [up]) == SimpleBond(lat, su, SimpleSweep(lat, su, s0, gates), up)
  {
    assert (gates + [up])[..|gates|] == gates;
  }

  lemma FullSweepSnoc(lat: Lattice, nm: FullNumerics, fast: bool, s0: State, gates: seq<NNOperator>, up: NNOperator)
    requires Lattices.Valid(lat) && KeepsSize(nm, lat.nUnit) && StateFits(lat, s0) && GatesFit(lat, gates) && GateFits(lat, up)
    ensures GatesFit(lat, gates + [up])
    ensures FullSweep(lat, nm, fast, s0, gates + [up]) == FullBond(lat, nm, fast, FullSweep(lat, nm, fast, s0, gates), up)
  {
    assert (gates + [up])[..|gates|] == gates;
  }

  /** The start-up: construction, then, when a load directory is given, the
      load, whose failure (a missing directory or tensor file) ends it. */
  method Start(lat: Lattice, chi: int, simpleUpdates: seq<NNOperator>, fullUpdates: seq<NNOperator>,
               onesiteOps: seq<Operator>, twositeOps: seq<Operator>, disk: Disk, loadDir: string)
    returns (r: Outcome<TeNeS>)
    requires Lattices.Valid(lat) && GatesFit(lat, simpleUpdates) && GatesFit(lat, fullUpdates)
    requires forall k :: 0 <= k < |onesiteOps| ==> Site(lat, onesiteOps[k].sourceSite) && onesiteOps[k].group >= 0
    ensures r.Success? <==> loadDir == "" || (loadDir in disk.dirs && AllTensorFiles(disk, loadDir, lat.nUnit))
    ensures r.Success? ==> fresh(r.value) && r.value.Valid() && r.value.lat == lat
    ensures r.Success? ==> LambdaShaped(r.value.lambda, lat.virtualDims)
    ensures r.Success? && loadDir == "" ==>
      r.value.Current() == State(AllocatedSites(lat, lat.nUnit), AllocatedEnv(lat, chi), InitialLambda(lat.virtualDims))
    ensures r.Success? && loadDir != "" ==>
      r.value.Current() == State(FileSites(disk, loadDir, lat.nUnit), FileEnv(disk, loadDir, lat.nUnit),
                                 LoadedLambda(LambdaTexts(disk, loadDir, lat.nUnit), lat.virtualDims))
  {
    var t := new TeNeS(lat, chi, simpleUpdates, fullUpdates, onesiteOps, twositeOps);
    if loadDir != "" {
      var loaded := t.Load(disk, loadDir);
      if loaded.Failure? {
        return Failure(loaded.message);
      }
    }
    return Success(t);
  }
}
