/** Operator descriptors and the two tables built from them when the solver is
    constructed: the number of operator groups and, per site and group, the
    index of the one-site operator assigned there (-1 for none). */
module Operators {
  import opened Tensors

  /** A one-site or two-site observable: its group, its source site, the
      displacements to its other sites, and (for a two-site operator given as a
      product) the groups of the two one-site factors. */
  datatype Operator = Operator(
    group: int,
    sourceSite: int,
    dx: seq<int>,
    dy: seq<int>,
    opsIndices: seq<int>,
    op: Tensor)

  /** A nearest-neighbour gate: the bond leaves `sourceSite` through `sourceLeg`. */
  datatype NNOperator = NNOperator(sourceSite: int, sourceLeg: int, op: Tensor)

  /** The number of groups: one more than the largest group, 0 when there are
      no operators (the running maximum starts at -1). */
  method CountGroups(ops: seq<Operator>) returns (n: int)
    ensures n >= 0
    ensures forall i :: 0 <= i < |ops| ==> ops[i].group < n
    ensures n == 0 || exists i :: 0 <= i < |ops| && ops[i].group == n - 1
    ensures |ops| == 0 ==> n == 0
  {
    var maxops := -1;
    for i := 0 to |ops|
      invariant maxops >= -1
      invariant forall k :: 0 <= k < i ==> ops[k].group <= maxops
      invariant maxops == -1 || exists k :: 0 <= k < i && ops[k].group == maxops
    {
      if ops[i].group > maxops {
        maxops := ops[i].group;
      }
    }
    n := maxops + 1;
  }

  predicate AssignedAt(op: Operator, site: int, group: int)
  {
    op.sourceSite == site && op.group == group
  }

  /** The index of the last operator with this site and group, or -1 if none. */
  function LastIndex(ops: seq<Operator>, site: int, group: int): (r: int)
    ensures -1 <= r < |ops|
    ensures r == -1 <==> forall i :: 0 <= i < |ops| ==> !AssignedAt(ops[i], site, group)
    ensures r >= 0 ==> AssignedAt(ops[r], site, group)
    ensures r >= 0 ==> forall i :: r < i < |ops| ==> !AssignedAt(ops[i], site, group)
    decreases |ops|
  {
    if |ops| == 0 then -1
    else if AssignedAt(ops[|ops| - 1], site, group) then |ops| - 1
    else LastIndex(ops[..|ops| - 1], site, group)
  }

  /** Every operator's site and group fit the table. */
  predicate OpsFit(ops: seq<Operator>, nUnit: int, num: int)
  {
    forall i :: 0 <= i < |ops| ==> 0 <= ops[i].sourceSite < nUnit && 0 <= ops[i].group < num
  }

  predicate TableShaped(table: seq<seq<int>>, nUnit: int, num: int)
  {
    |table| == nUnit && forall s :: 0 <= s < nUnit ==> |table[s]| == num
  }

  /** `site_ops_indices`: start from -1 everywhere, then write each operator's
      index at its (site, group), later operators overwriting earlier ones. */
  method BuildSiteOpsIndices(ops: seq<Operator>, nUnit: nat, num: nat) returns (table: seq<seq<int>>)
    requires OpsFit(ops, nUnit, num)
    ensures TableShaped(table, nUnit, num)
    ensures forall s, g :: 0 <= s < nUnit && 0 <= g < num ==> table[s][g] == LastIndex(ops, s, g)
  {
    table := seq(nUnit, _ => seq(num, _ => -1));
    for i := 0 to |ops|
      invariant TableShaped(table, nUnit, num)
      invariant forall s, g :: 0 <= s < nUnit && 0 <= g < num ==> table[s][g] == LastIndex(ops[..i], s, g)
    {
      var site, group := ops[i].sourceSite, ops[i].group;
      table := table[site := table[site][group := i]];
      assert ops[..i + 1][..i] == ops[..i];
    }
    assert ops[..|ops|] == ops;
  }

  /** Reading the table: -1 exactly when no operator has this site and group,
      otherwise an operator that has exactly this site and group. */
  lemma SiteOpsIndexMeaning(ops: seq<Operator>, table: seq<seq<int>>, nUnit: nat, num: nat, s: int, g: int)
    requires TableShaped(table, nUnit, num)
    requires forall s', g' :: 0 <= s' < nUnit && 0 <= g' < num ==> table[s'][g'] == LastIndex(ops, s', g')
    requires 0 <= s < nUnit && 0 <= g < num
    ensures table[s][g] == -1 <==> !exists i :: 0 <= i < |ops| && AssignedAt(ops[i], s, g)
    ensures table[s][g] != -1 ==> 0 <= table[s][g] < |ops| && ops[table[s][g]].sourceSite == s && ops[table[s][g]].group == g
  {
  }
}
