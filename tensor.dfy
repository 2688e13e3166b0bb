/** Tensors as the bookkeeping layer sees them: a shape and a payload that the
    model never interprets, the mixed-radix flat index used to fill a site
    tensor at start-up, and the scalar values the contractions return. */
module Tensors {

  /** What a tensor holds. Freshly allocated storage is `Unspecified`; a tensor
      whose entries the program sets one by one lists them in flat-index order. */
  datatype TensorData = Unspecified | Entries(values: seq<real>)

  datatype Tensor = Tensor(shape: seq<int>, data: TensorData)

  /** A (possibly complex) scalar returned by a contraction. */
  datatype Value = Value(re: real, im: real)

  /** A measured quantity before the floating-point division `value / norm`. */
  datatype Observed = Observed(value: Value, norm: real)

  const Zero: Value := Value(0.0, 0.0)

  function Add(a: Value, b: Value): (c: Value)
    ensures c.re == a.re + b.re && c.im == a.im + b.im
  {
    Value(a.re + b.re, a.im + b.im)
  }

  function Scale(a: Value, s: real): (c: Value)
    ensures c.re == a.re * s && c.im == a.im * s
  {
    Value(a.re * s, a.im * s)
  }

  /** `ptensor(Shape(...))`: a tensor of the given shape with unspecified entries. */
  function Allocate(shape: seq<int>): (t: Tensor)
    ensures t.shape == shape && t.data == Unspecified
  {
    Tensor(shape, Unspecified)
  }

  // ---------------------------------------------------------------------------
  // Mixed-radix flat index (the first index varies fastest)
  // ---------------------------------------------------------------------------

  /** The number of entries of a tensor with these dimensions. */
  function Prod(dims: seq<int>): int
  {
    if |dims| == 0 then 1 else dims[0] * Prod(dims[1..])
  }

  predicate PositiveDims(dims: seq<int>)
  {
    forall k :: 0 <= k < |dims| ==> dims[k] > 0
  }

  /** `ix` is a valid index tuple for a tensor with dimensions `dims`. */
  predicate InRange(ix: seq<int>, dims: seq<int>)
  {
    |ix| == |dims| && forall k :: 0 <= k < |ix| ==> 0 <= ix[k] < dims[k]
  }

  /** ix[0] + dims[0] * (ix[1] + dims[1] * (ix[2] + ...)). */
  function FlatIndex(ix: seq<int>, dims: seq<int>): int
    requires |ix| == |dims|
  {
    if |ix| == 0 then 0 else ix[0] + dims[0] * FlatIndex(ix[1..], dims[1..])
  }

  /** The index tuple whose flat index is n. */
  function Unflatten(n: int, dims: seq<int>): (ix: seq<int>)
    requires PositiveDims(dims)
    ensures |ix| == |dims|
    decreases |dims|
  {
    if |dims| == 0 then []
    else
      var d := dims[0];
      assert d > 0;
      assert PositiveDims(dims[1..]);
      [n % d] + Unflatten(n / d, dims[1..])
  }

  lemma MulMonotone(d: int, a: int, b: int)
    requires d >= 0 && a <= b
    ensures d * a <= d * b
  {
    assert d * b - d * a == d * (b - a);
  }

  lemma DivModOfRadix(r: int, d: int, q: int)
    requires 0 <= r < d
    ensures (r + d * q) % d == r && (r + d * q) / d == q
  {
    var n := r + d * q;
    var q', r' := n / d, n % d;
    assert n == d * q' + r';
    assert d * (q' - q) == r - r';
    if q' > q {
      MulMonotone(d, 1, q' - q);
    } else if q' < q {
      MulMonotone(d, 1, q - q');
    }
  }

  lemma DivModSplit(n: int, d: int)
    requires d > 0
    ensures n == d * (n / d) + n % d
  {
  }

  lemma DivBelow(n: int, d: int, p: int)
    requires d > 0 && 0 <= n < d * p
    ensures 0 <= n / d < p
  {
    assert n == d * (n / d) + n % d;
    if n / d >= p {
      MulMonotone(d, p, n / d);
    }
  }

  /** The flat index of a valid tuple lies in [0, Prod(dims)). */
  lemma {:induction false} FlatIndexBounds(ix: seq<int>, dims: seq<int>)
    requires InRange(ix, dims)
    ensures 0 <= FlatIndex(ix, dims) < Prod(dims)
  {
    if |ix| > 0 {
      assert InRange(ix[1..], dims[1..]);
      FlatIndexBounds(ix[1..], dims[1..]);
      var f := FlatIndex(ix[1..], dims[1..]);
      var p := Prod(dims[1..]);
      MulMonotone(dims[0], f, p - 1);
      assert dims[0] * (p - 1) == dims[0] * p - dims[0];
    }
  }

  /** Unflatten undoes FlatIndex on valid tuples (so FlatIndex is injective there). */
  lemma {:induction false} UnflattenFlatIndex(ix: seq<int>, dims: seq<int>)
    requires InRange(ix, dims)
    ensures PositiveDims(dims) && Unflatten(FlatIndex(ix, dims), dims) == ix
  {
    if |ix| > 0 {
      assert InRange(ix[1..], dims[1..]);
      UnflattenFlatIndex(ix[1..], dims[1..]);
      DivModOfRadix(ix[0], dims[0], FlatIndex(ix[1..], dims[1..]));
      assert ix == [ix[0]] + ix[1..];
    }
  }

  /** Every n in [0, Prod(dims)) is the flat index of a valid tuple. */
  lemma {:induction false} FlatIndexUnflatten(n: int, dims: seq<int>)
    requires PositiveDims(dims) && 0 <= n < Prod(dims)
    ensures InRange(Unflatten(n, dims), dims)
    ensures FlatIndex(Unflatten(n, dims), dims) == n
    decreases |dims|
  {
    if |dims| > 0 {
      var d, q, rest := dims[0], n / dims[0], dims[1..];
      assert PositiveDims(rest);
      DivBelow(n, d, Prod(rest));
      FlatIndexUnflatten(q, rest);
      var ix := Unflatten(n, dims);
      var tail := Unflatten(q, rest);
      assert ix == [n % d] + tail;
      assert ix[1..] == tail;
      forall k | 0 <= k < |ix|
        ensures 0 <= ix[k] < dims[k]
      {
        if k > 0 {
          assert ix[k] == tail[k - 1] && dims[k] == rest[k - 1];
        }
      }
      assert FlatIndex(ix, dims) == n % d + d * FlatIndex(tail, rest);
      DivModSplit(n, d);
    }
  }

  /** FlatIndex is a bijection from the valid tuples onto [0, Prod(dims)). */
  lemma FlatIndexBijective(dims: seq<int>)
    requires PositiveDims(dims)
    ensures forall ix, jx :: InRange(ix, dims) && InRange(jx, dims) && FlatIndex(ix, dims) == FlatIndex(jx, dims) ==> ix == jx
    ensures forall n :: 0 <= n < Prod(dims) ==> InRange(Unflatten(n, dims), dims) && FlatIndex(Unflatten(n, dims), dims) == n
  {
    forall ix, jx | InRange(ix, dims) && InRange(jx, dims) && FlatIndex(ix, dims) == FlatIndex(jx, dims)
      ensures ix == jx
    {
      UnflattenFlatIndex(ix, dims);
      UnflattenFlatIndex(jx, dims);
    }
    forall n | 0 <= n < Prod(dims)
      ensures InRange(Unflatten(n, dims), dims) && FlatIndex(Unflatten(n, dims), dims) == n
    {
      FlatIndexUnflatten(n, dims);
    }
  }

  /** For a site tensor (four virtual legs and one physical leg) the flat index
      is the program's `nr`. */
  lemma SiteFlatIndex(i0: int, i1: int, i2: int, i3: int, i4: int,
                      v0: int, v1: int, v2: int, v3: int, p: int)
    ensures FlatIndex([i0, i1, i2, i3, i4], [v0, v1, v2, v3, p])
         == i0 + i1 * v0 + i2 * v0 * v1 + i3 * v0 * v1 * v2 + i4 * v0 * v1 * v2 * v3
  {
    SiteFlatHorner(i0, i1, i2, i3, i4, v0, v1, v2, v3, p);
    HornerExpanded(i0, i1, i2, i3, i4, v0, v1, v2, v3);
  }

  lemma SiteFlatHorner(i0: int, i1: int, i2: int, i3: int, i4: int,
                       v0: int, v1: int, v2: int, v3: int, p: int)
    ensures FlatIndex([i0, i1, i2, i3, i4], [v0, v1, v2, v3, p])
         == i0 + v0 * (i1 + v1 * (i2 + v2 * (i3 + v3 * i4)))
  {
    var ix, dims := [i0, i1, i2, i3, i4], [v0, v1, v2, v3, p];
    assert ix[1..] == [i1, i2, i3, i4] && dims[1..] == [v1, v2, v3, p];
    assert ix[1..][1..] == [i2, i3, i4] && dims[1..][1..] == [v2, v3, p];
    assert ix[1..][1..][1..] == [i3, i4] && dims[1..][1..][1..] == [v3, p];
    assert ix[1..][1..][1..][1..] == [i4] && dims[1..][1..][1..][1..] == [p];
    assert [i4][1..] == [] && [p][1..] == [];
    assert FlatIndex([], []) == 0;
    assert FlatIndex([i4], [p]) == i4 + p * 0;
    assert FlatIndex([i3, i4], [v3, p]) == i3 + v3 * i4;
    assert FlatIndex([i2, i3, i4], [v2, v3, p]) == i2 + v2 * (i3 + v3 * i4);
    assert FlatIndex([i1, i2, i3, i4], [v1, v2, v3, p]) == i1 + v1 * (i2 + v2 * (i3 + v3 * i4));
  }

  lemma HornerExpanded(i0: int, i1: int, i2: int, i3: int, i4: int, v0: int, v1: int, v2: int, v3: int)
    ensures i0 + v0 * (i1 + v1 * (i2 + v2 * (i3 + v3 * i4)))
         == i0 + i1 * v0 + i2 * v0 * v1 + i3 * v0 * v1 * v2 + i4 * v0 * v1 * v2 * v3
  {
    var w3 := i3 + v3 * i4;
    var w2 := i2 + v2 * w3;
    Distribute(v0, i1, v1 * w2);
    Associate(v0, v1, w2);
    Distribute(v0 * v1, i2, v2 * w3);
    Associate(v0 * v1, v2, w3);
    Distribute(v0 * v1 * v2, i3, v3 * i4);
    Associate(v0 * v1 * v2, v3, i4);
  }

  lemma Distribute(a: int, b: int, c: int)
    ensures a * (b + c) == a * b + a * c
  {
  }

  lemma Associate(a: int, b: int, c: int)
    ensures a * (b * c) == a * b * c
  {
  }

  /** A site tensor holds v0 * v1 * v2 * v3 * p entries. */
  lemma SiteVolume(v0: int, v1: int, v2: int, v3: int, p: int)
    ensures Prod([v0, v1, v2, v3, p]) == v0 * v1 * v2 * v3 * p
  {
    var dims := [v0, v1, v2, v3, p];
    assert dims[1..] == [v1, v2, v3, p] && dims[1..][1..] == [v2, v3, p];
    assert dims[1..][1..][1..] == [v3, p] && dims[1..][1..][1..][1..] == [p] && [p][1..] == [];
    assert Prod([p]) == p;
    assert Prod([v3, p]) == v3 * p;
    assert Prod([v2, v3, p]) == v2 * (v3 * p);
    assert Prod([v1, v2, v3, p]) == v1 * (v2 * (v3 * p));
  }

  // ---------------------------------------------------------------------------
  // The identity operator of a site
  // ---------------------------------------------------------------------------

  /** The pdim x pdim identity written entry by entry: 1.0 on the diagonal and
      0.0 elsewhere. */
  function IdentityOp(pdim: nat): (t: Tensor)
    ensures t.shape == [pdim, pdim] && t.data.Entries?
    ensures |t.data.values| == Prod([pdim, pdim])
  {
    assert Prod([pdim, pdim]) == pdim * pdim by {
      assert [pdim, pdim][1..] == [pdim] && [pdim][1..] == [];
      assert Prod([]) == 1;
      assert Prod([pdim]) == pdim * 1;
    }
    if pdim == 0 then Tensor([0, 0], Entries([]))
    else Tensor([pdim, pdim], Entries(seq(pdim * pdim, n => if n % pdim == n / pdim then 1.0 else 0.0)))
  }

  /** Entry (j, k) of the identity is 1 exactly on the diagonal. */
  lemma IdentityOpEntry(pdim: nat, j: int, k: int)
    requires 0 <= j < pdim && 0 <= k < pdim
    ensures InRange([j, k], [pdim, pdim])
    ensures 0 <= FlatIndex([j, k], [pdim, pdim]) < |IdentityOp(pdim).data.values|
    ensures IdentityOp(pdim).data.values[FlatIndex([j, k], [pdim, pdim])] == (if j == k then 1.0 else 0.0)
  {
    assert [j, k][1..] == [k] && [pdim, pdim][1..] == [pdim];
    assert [k][1..] == [] && [pdim][1..] == [];
    assert FlatIndex([], []) == 0;
    assert FlatIndex([k], [pdim]) == k + pdim * 0;
    assert FlatIndex([j, k], [pdim, pdim]) == j + pdim * k;
    FlatIndexBounds([j, k], [pdim, pdim]);
    DivModOfRadix(j, pdim, k);
  }
}
