/** One-site observables: the table of <O> per (group, site), where a
    (group, site) no operator was given for stays undefined (the program's NaN),
    and the list of lines the saver writes, which holds the defined entries only. */
module OneSite {
  import opened Tensors
  import opened Environment
  import opened Operators

  datatype Option<T> = None | Some(value: T)

  /** The nine tensors a one-site contraction reads: the four corners, the four
      edges and the site tensor. */
  datatype SiteEnv = SiteEnv(
    c1: Tensor, c2: Tensor, c3: Tensor, c4: Tensor,
    eTt: Tensor, eTr: Tensor, eTb: Tensor, eTl: Tensor, tn: Tensor)

  function SiteEnvOf(env: Env, tn: seq<Tensor>, i: int): SiteEnv
    requires EnvSized(env, |tn|) && 0 <= i < |tn|
  {
    SiteEnv(env.c1[i], env.c2[i], env.c3[i], env.c4[i], env.eTt[i], env.eTr[i], env.eTb[i], env.eTl[i], tn[i])
  }

  /** Entry (g, i) of the one-site table: undefined when no operator of group g
      sits on site i; otherwise the last such operator's contraction over the
      contraction with the identity (the norm). */
  function OnesiteEntry(env: Env, tn: seq<Tensor>, ids: seq<Tensor>, ops: seq<Operator>,
                        contract: (SiteEnv, Tensor) -> Value, g: int, i: int): (e: Option<Observed>)
    requires EnvSized(env, |tn|) && |ids| == |tn| && 0 <= i < |tn|
    ensures e.None? <==> forall k :: 0 <= k < |ops| ==> !AssignedAt(ops[k], i, g)
    ensures e.Some? ==> exists k :: 0 <= k < |ops| && AssignedAt(ops[k], i, g)
                          && e.value == Observed(contract(SiteEnvOf(env, tn, i), ops[k].op),
                                                 contract(SiteEnvOf(env, tn, i), ids[i]).re)
  {
    var k := LastIndex(ops, i, g);
    if k == -1 then None
    else Some(Observed(contract(SiteEnvOf(env, tn, i), ops[k].op), contract(SiteEnvOf(env, tn, i), ids[i]).re))
  }

  predicate TableOf<T>(t: seq<seq<T>>, rows: int, cols: int)
  {
    |t| == rows && forall g :: 0 <= g < rows ==> |t[g]| == cols
  }

  /** measure_onesite: the norm of every site first, then each operator writes
      its value at (group, site); a later operator with the same group and site
      overwrites an earlier one. */
  method MeasureOnesite(env: Env, tn: seq<Tensor>, ids: seq<Tensor>, ops: seq<Operator>, nlops: nat,
                        contract: (SiteEnv, Tensor) -> Value)
    returns (obs: seq<seq<Option<Observed>>>)
    requires EnvSized(env, |tn|) && |ids| == |tn|
    requires OpsFit(ops, |tn|, nlops)
    ensures TableOf(obs, nlops, |tn|)
    ensures forall g, i :: 0 <= g < nlops && 0 <= i < |tn| ==> obs[g][i] == OnesiteEntry(env, tn, ids, ops, contract, g, i)
  {
    var n := |tn|;
    var norm: seq<real> := [];
    for i := 0 to n
      invariant |norm| == i
      invariant forall j :: 0 <= j < i ==> norm[j] == contract(SiteEnvOf(env, tn, j), ids[j]).re
    {
      norm := norm + [contract(SiteEnvOf(env, tn, i), ids[i]).re];
    }
    obs := seq(nlops, _ => seq(n, _ => None));
    for k := 0 to |ops|
      invariant TableOf(obs, nlops, n)
      invariant forall g, i :: 0 <= g < nlops && 0 <= i < n ==>
        obs[g][i] == (var last := LastIndex(ops[..k], i, g);
                      if last == -1 then None
                      else Some(Observed(contract(SiteEnvOf(env, tn, i), ops[last].op), norm[i])))
    {
      var i, g := ops[k].sourceSite, ops[k].group;
      var value := contract(SiteEnvOf(env, tn, i), ops[k].op);
      obs := obs[g := obs[g][i := Some(Observed(value, norm[i]))]];
      assert ops[..k + 1][..k] == ops[..k];
    }
    assert ops[..|ops|] == ops;
  }

  // ---------------------------------------------------------------------------
  // save_onesite
  // ---------------------------------------------------------------------------

  /** One output line: group, site, and the value (its real and imaginary
      parts are printed after the division by the norm). */
  datatype OnesiteLine = OnesiteLine(group: int, site: int, value: Observed)

  /** Line a is written before line b: by group, then by site. */
  predicate LineBefore(a: OnesiteLine, b: OnesiteLine)
  {
    a.group < b.group || (a.group == b.group && a.site < b.site)
  }

  /** The saver: groups in order, sites in order, skipping undefined entries. */
  method SaveOnesite(obs: seq<seq<Option<Observed>>>, nlops: nat, n: nat) returns (lines: seq<OnesiteLine>)
    requires TableOf(obs, nlops, n)
    ensures forall a, b :: 0 <= a < b < |lines| ==> LineBefore(lines[a], lines[b])
    ensures forall k :: 0 <= k < |lines| ==>
              0 <= lines[k].group < nlops && 0 <= lines[k].site < n
              && obs[lines[k].group][lines[k].site] == Some(lines[k].value)
    ensures forall g, i :: 0 <= g < nlops && 0 <= i < n && obs[g][i].Some? ==>
              OnesiteLine(g, i, obs[g][i].value) in lines
  {
    lines := [];
    for g := 0 to nlops
      invariant forall a, b :: 0 <= a < b < |lines| ==> LineBefore(lines[a], lines[b])
      invariant forall k :: 0 <= k < |lines| ==>
                  0 <= lines[k].group < g && 0 <= lines[k].site < n
                  && obs[lines[k].group][lines[k].site] == Some(lines[k].value)
      invariant forall g', i :: 0 <= g' < g && 0 <= i < n && obs[g'][i].Some? ==>
                  OnesiteLine(g', i, obs[g'][i].value) in lines
    {
      for i := 0 to n
        invariant forall a, b :: 0 <= a < b < |lines| ==> LineBefore(lines[a], lines[b])
        invariant forall k :: 0 <= k < |lines| ==>
                    && (0 <= lines[k].group < g || (lines[k].group == g && lines[k].site < i))
                    && 0 <= lines[k].site < n && obs[lines[k].group][lines[k].site] == Some(lines[k].value)
        invariant forall g', i' ::
                    (0 <= g' < nlops && 0 <= i' < n && obs[g'][i'].Some? && (g' < g || (g' == g && i' < i))) ==>
                    OnesiteLine(g', i', obs[g'][i'].value) in lines
      {
        if obs[g][i].None? {
          continue;
        }
        lines := lines + [OnesiteLine(g, i, obs[g][i].value)];
      }
    }
  }

  /** What the saver writes for (g, i) is the measured entry: a line exists
      exactly when an operator of group g sits on site i. */
  lemma SavedExactlyAssigned(env: Env, tn: seq<Tensor>, ids: seq<Tensor>, ops: seq<Operator>, nlops: nat,
                             contract: (SiteEnv, Tensor) -> Value,
                             obs: seq<seq<Option<Observed>>>, lines: seq<OnesiteLine>, g: int, i: int)
    requires EnvSized(env, |tn|) && |ids| == |tn|
    requires TableOf(obs, nlops, |tn|)
    requires forall g', i' :: 0 <= g' < nlops && 0 <= i' < |tn| ==> obs[g'][i'] == OnesiteEntry(env, tn, ids, ops, contract, g', i')
    requires forall k :: 0 <= k < |lines| ==>
               0 <= lines[k].group < nlops && 0 <= lines[k].site < |tn|
               && obs[lines[k].group][lines[k].site] == Some(lines[k].value)
    requires forall g', i' :: 0 <= g' < nlops && 0 <= i' < |tn| && obs[g'][i'].Some? ==>
               OnesiteLine(g', i', obs[g'][i'].value) in lines
    requires 0 <= g < nlops && 0 <= i < |tn|
    ensures (exists v :: OnesiteLine(g, i, v) in lines) <==> (exists k :: 0 <= k < |ops| && AssignedAt(ops[k], i, g))
  {
    if exists v :: OnesiteLine(g, i, v) in lines {
      var v :| OnesiteLine(g, i, v) in lines;
      var k :| 0 <= k < |lines| && lines[k] == OnesiteLine(g, i, v);
      assert obs[g][i].Some?;
    }
    if exists k :: 0 <= k < |ops| && AssignedAt(ops[k], i, g) {
      assert obs[g][i].Some?;
      assert OnesiteLine(g, i, obs[g][i].value) in lines;
    }
  }
}
