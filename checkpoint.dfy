/** Saving and loading the state between runs: every tensor goes to its own
    file `<dir>/<Kind>_<site>.dat`, the lambdas of a site to
    `<dir>/lambda_<site>.dat` as one number per leg entry (legs 0..3 in
    turn), and loading reads them back in the same order. The binary format
    of a tensor file is the tensor library's and is not modelled: a file
    simply holds a tensor. */
module Checkpoint {
  import opened Tensors
  import opened Lattices
  import opened Environment

  // ---------------------------------------------------------------------------
  // File names
  // ---------------------------------------------------------------------------

  function DigitChar(d: int): (c: char)
    requires 0 <= d < 10
    ensures '0' <= c <= '9'
  {
    (48 + d) as char
  }

  /** std::to_string of a non-negative int: its decimal digits, no leading zeros. */
  function NatToString(n: nat): (s: string)
    ensures |s| > 0
    ensures forall k :: 0 <= k < |s| ==> '0' <= s[k] <= '9'
    decreases n
  {
    if n < 10 then [DigitChar(n)] else NatToString(n / 10) + [DigitChar(n % 10)]
  }

  /** The value of a string of decimal digits. */
  function ParseNat(s: string): int
    decreases |s|
  {
    if |s| == 0 then 0 else ParseNat(s[..|s| - 1]) * 10 + (s[|s| - 1] as int - 48)
  }

  lemma {:induction false} ParseNatToString(n: nat)
    ensures ParseNat(NatToString(n)) == n
    decreases n
  {
    if n >= 10 {
      ParseNatToString(n / 10);
      var s := NatToString(n);
      assert s[..|s| - 1] == NatToString(n / 10);
    }
  }

  /** Different sites give different numbers. */
  lemma NatToStringInjective(a: nat, b: nat)
    ensures NatToString(a) == NatToString(b) ==> a == b
  {
    ParseNatToString(a);
    ParseNatToString(b);
  }

  /** The nine tensors kept per site: the site tensor, the four edges and the four corners. */
  datatype Kind = SiteTensor | EdgeTop | EdgeRight | EdgeBottom | EdgeLeft
                | Corner1 | Corner2 | Corner3 | Corner4

  function KindName(k: Kind): (s: string)
    ensures |s| > 0 && '_' !in s
  {
    match k
    case SiteTensor => "T"
    case EdgeTop => "Et"
    case EdgeRight => "Er"
    case EdgeBottom => "Eb"
    case EdgeLeft => "El"
    case Corner1 => "C1"
    case Corner2 => "C2"
    case Corner3 => "C3"
    case Corner4 => "C4"
  }

  lemma KindNameInjective(a: Kind, b: Kind)
    ensures KindName(a) == KindName(b) ==> a == b
  {
  }

  const Suffix: string := ".dat"

  /** `<dir>/<Kind>_<i>.dat` */
  function FileName(dir: string, k: Kind, i: nat): string
  {
    dir + "/" + KindName(k) + "_" + NatToString(i) + Suffix
  }

  /** `<dir>/lambda_<i>.dat` */
  function LambdaFileName(dir: string, i: nat): string
  {
    dir + "/" + "lambda" + "_" + NatToString(i) + Suffix
  }

  /** Two strings split at the first occurrence of c: the parts before it agree. */
  lemma SplitAtFirst(a1: string, b1: string, a2: string, b2: string, c: char)
    requires c !in a1 && c !in a2
    requires a1 + [c] + b1 == a2 + [c] + b2
    ensures a1 == a2 && b1 == b2
  {
    var s, t := a1 + [c] + b1, a2 + [c] + b2;
    assert s[|a1|] == c && t[|a2|] == c;
    forall k | 0 <= k < |a1|
      ensures s[k] != c
    {
      assert s[k] == a1[k] && a1[k] in a1;
    }
    forall k | 0 <= k < |a2|
      ensures t[k] != c
    {
      assert t[k] == a2[k] && a2[k] in a2;
    }
    assert |a1| == |a2|;
    assert a1 == s[..|a1|] && a2 == t[..|a2|];
    assert b1 == s[|a1| + 1..] && b2 == t[|a2| + 1..];
  }

  /** Everything after `<dir>/`, as a name, an underscore, a number and the suffix. */
  lemma NameTail(dir: string, name: string, i: nat)
    ensures dir + "/" + name + "_" + NatToString(i) + Suffix
         == dir + "/" + (name + ['_'] + (NatToString(i) + Suffix))
  {
  }

  lemma SameDirTails(dir: string, t1: string, t2: string)
    requires dir + "/" + t1 == dir + "/" + t2
    ensures t1 == t2
  {
    var s := dir + "/" + t1;
    assert t1 == s[|dir| + 1..];
    assert t2 == (dir + "/" + t2)[|dir| + 1..];
  }

  lemma SameSuffix(d1: string, d2: string)
    requires d1 + Suffix == d2 + Suffix
    ensures d1 == d2
  {
    assert d1 == (d1 + Suffix)[..|d1|];
    assert d2 == (d2 + Suffix)[..|d2|];
  }

  /** No two tensors of a checkpoint share a file, and no tensor file is a
      lambda file. */
  lemma FileNamesDistinct(dir: string, k1: Kind, i1: nat, k2: Kind, i2: nat, j: nat)
    ensures FileName(dir, k1, i1) == FileName(dir, k2, i2) ==> k1 == k2 && i1 == i2
    ensures FileName(dir, k1, i1) != LambdaFileName(dir, j)
  {
    NameTail(dir, KindName(k1), i1);
    NameTail(dir, KindName(k2), i2);
    NameTail(dir, "lambda", j);
    if FileName(dir, k1, i1) == FileName(dir, k2, i2) {
      SameDirTails(dir, KindName(k1) + ['_'] + (NatToString(i1) + Suffix), KindName(k2) + ['_'] + (NatToString(i2) + Suffix));
      SplitAtFirst(KindName(k1), NatToString(i1) + Suffix, KindName(k2), NatToString(i2) + Suffix, '_');
      KindNameInjective(k1, k2);
      SameSuffix(NatToString(i1), NatToString(i2));
      NatToStringInjective(i1, i2);
    }
    if FileName(dir, k1, i1) == LambdaFileName(dir, j) {
      SameDirTails(dir, KindName(k1) + ['_'] + (NatToString(i1) + Suffix), "lambda" + ['_'] + (NatToString(j) + Suffix));
      SplitAtFirst(KindName(k1), NatToString(i1) + Suffix, "lambda", NatToString(j) + Suffix, '_');
      assert false;
    }
  }

  /** Different tensors of a checkpoint have different files. */
  lemma TensorFileNamesDistinct(dir: string, k1: Kind, i1: nat, k2: Kind, i2: nat)
    requires k1 != k2 || i1 != i2
    ensures FileName(dir, k1, i1) != FileName(dir, k2, i2)
  {
    FileNamesDistinct(dir, k1, i1, k2, i2, 0);
  }

  /** Different sites have different lambda files. */
  lemma LambdaFileNamesDistinct(dir: string, i: nat, j: nat)
    ensures LambdaFileName(dir, i) == LambdaFileName(dir, j) ==> i == j
  {
    NameTail(dir, "lambda", i);
    NameTail(dir, "lambda", j);
    if LambdaFileName(dir, i) == LambdaFileName(dir, j) {
      SameDirTails(dir, "lambda" + ['_'] + (NatToString(i) + Suffix), "lambda" + ['_'] + (NatToString(j) + Suffix));
      SplitAtFirst("lambda", NatToString(i) + Suffix, "lambda", NatToString(j) + Suffix, '_');
      SameSuffix(NatToString(i), NatToString(j));
      NatToStringInjective(i, j);
    }
  }

  // ---------------------------------------------------------------------------
  // Lambdas: lambda[site][leg][k], k < virtual_dims[site][leg]
  // ---------------------------------------------------------------------------

  type Lambda = seq<seq<seq<real>>>

  predicate NonNegative(v: seq<int>)
  {
    forall j :: 0 <= j < |v| ==> v[j] >= 0
  }

  /** v[0] + ... + v[m-1], with m clamped to [0, |v|]. */
  function PrefixSum(v: seq<int>, m: int): int
    decreases m
  {
    if m <= 0 then 0
    else if m > |v| then PrefixSum(v, |v|)
    else PrefixSum(v, m - 1) + v[m - 1]
  }

  function Sum(v: seq<int>): int
  {
    PrefixSum(v, |v|)
  }

  /** With non-negative entries, a longer prefix sums to no less. */
  lemma {:induction false} PrefixSumMonotone(v: seq<int>, m: int, n: int)
    requires NonNegative(v) && 0 <= m <= n <= |v|
    ensures 0 <= PrefixSum(v, m) <= PrefixSum(v, n)
    decreases n
  {
    if m < n {
      PrefixSumMonotone(v, m, n - 1);
    } else if m > 0 {
      PrefixSumMonotone(v, m - 1, m - 1);
    }
  }

  /** Entry k of part j lies strictly inside the whole. */
  lemma EntryInside(v: seq<int>, j: int, k: int)
    requires NonNegative(v) && 0 <= j < |v| && 0 <= k < v[j]
    ensures 0 <= PrefixSum(v, j) + k < Sum(v)
  {
    PrefixSumMonotone(v, j, j);
    PrefixSumMonotone(v, j + 1, |v|);
  }

  /** The first m parts, one after the other. */
  function ConcatPrefix(l: seq<seq<real>>, m: int): seq<real>
    decreases m
  {
    if m <= 0 then []
    else if m > |l| then ConcatPrefix(l, |l|)
    else ConcatPrefix(l, m - 1) + l[m - 1]
  }

  function Concat(l: seq<seq<real>>): seq<real>
  {
    ConcatPrefix(l, |l|)
  }

  predicate PartsSized(l: seq<seq<real>>, v: seq<int>)
  {
    |l| == |v| && forall j :: 0 <= j < |l| ==> |l[j]| == v[j]
  }

  lemma {:induction false} ConcatLength(l: seq<seq<real>>, v: seq<int>, m: int)
    requires PartsSized(l, v) && 0 <= m <= |l|
    ensures |ConcatPrefix(l, m)| == PrefixSum(v, m)
    decreases m
  {
    if m > 0 {
      ConcatLength(l, v, m - 1);
    }
  }

  /** Entry k of part j of a concatenation sits at offset PrefixSum(v, j) + k. */
  lemma {:induction false} ConcatEntry(l: seq<seq<real>>, v: seq<int>, m: int, j: int, k: int)
    requires PartsSized(l, v) && 0 <= j < m <= |l| && 0 <= k < v[j]
    ensures |ConcatPrefix(l, m)| == PrefixSum(v, m)
    ensures 0 <= PrefixSum(v, j) + k < |ConcatPrefix(l, m)|
    ensures ConcatPrefix(l, m)[PrefixSum(v, j) + k] == l[j][k]
    decreases m
  {
    ConcatLength(l, v, m);
    ConcatLength(l, v, m - 1);
    if j < m - 1 {
      ConcatEntry(l, v, m - 1, j, k);
    } else {
      ConcatLength(l, v, j);
    }
  }

  /** Every site has four legs of non-negative dimension. */
  predicate DimsShaped(vdims: seq<seq<int>>)
  {
    forall i :: 0 <= i < |vdims| ==> |vdims[i]| == NLeg && NonNegative(vdims[i])
  }

  /** lam[i][j] has vdims[i][j] entries. */
  predicate LambdaShaped(lam: Lambda, vdims: seq<seq<int>>)
  {
    && |lam| == |vdims| && DimsShaped(vdims)
    && forall i :: 0 <= i < |lam| ==> PartsSized(lam[i], vdims[i])
  }

  /** The initial lambdas: 1.0 everywhere. */
  function InitialLambda(vdims: seq<seq<int>>): (lam: Lambda)
    ensures DimsShaped(vdims) ==> LambdaShaped(lam, vdims)
    ensures forall i, j, k :: 0 <= i < |lam| && 0 <= j < |lam[i]| && 0 <= k < |lam[i][j]| ==> lam[i][j][k] == 1.0
  {
    seq(|vdims|, i requires 0 <= i < |vdims| =>
      seq(|vdims[i]|, j requires 0 <= j < |vdims[i]| => seq(if vdims[i][j] < 0 then 0 else vdims[i][j], _ => 1.0)))
  }

  /** What the p-th read of a stream over `file` gives: the p-th number, or
      0.0 once the numbers (or the file) have run out. */
  function ReadAt(file: seq<real>, p: int): real
  {
    if 0 <= p < |file| then file[p] else 0.0
  }

  /** Entry i of v, or 0 outside it. */
  function IntAt(v: seq<int>, i: int): int
  {
    if 0 <= i < |v| then v[i] else 0
  }

  /** Entry i of s, or the empty sequence outside it. */
  function SeqAt<T>(s: seq<seq<T>>, i: int): seq<T>
  {
    if 0 <= i < |s| then s[i] else []
  }

  /** `n` reads of `ls` from position `at` on. */
  function LegValues(ls: seq<real>, at: int, n: int): (leg: seq<real>)
    ensures n >= 0 ==> |leg| == n
    ensures forall k :: 0 <= k < |leg| ==> leg[k] == ReadAt(ls, at + k)
  {
    seq(if n < 0 then 0 else n, k => ReadAt(ls, at + k))
  }

  /** The legs of one site read from `ls` from position `at` on, leg after leg. */
  function SiteValues(ls: seq<real>, dims: seq<int>, at: int): (site: seq<seq<real>>)
    ensures |site| == |dims|
    ensures forall j :: 0 <= j < |dims| ==> site[j] == LegValues(ls, at + PrefixSum(dims, j), dims[j])
  {
    seq(|dims|, j => LegValues(ls, at + PrefixSum(dims, j), IntAt(dims, j)))
  }

  /** The numbers the text of site i's lambda file stands for: its values leg
      by leg, each as `written` renders it. */
  function SavedLambda(lam: Lambda, written: real -> real): (files: seq<seq<real>>)
    ensures |files| == |lam|
  {
    seq(|lam|, i requires 0 <= i < |lam| => WrittenText(Concat(lam[i]), written))
  }

  /** The values as `written` renders them, in order. */
  function WrittenText(vals: seq<real>, written: real -> real): (text: seq<real>)
    ensures |text| == |vals| && forall p :: 0 <= p < |vals| ==> text[p] == written(vals[p])
  {
    seq(|vals|, p requires 0 <= p < |vals| => written(vals[p]))
  }

  lemma WrittenAppend(a: seq<real>, b: seq<real>, written: real -> real)
    ensures WrittenText(a + b, written) == WrittenText(a, written) + WrittenText(b, written)
  {
  }

  /** The lambdas read back from the files: leg j, entry k of site i is the
      (PrefixSum(vdims[i], j) + k)-th read of that site's file. */
  function LoadedLambda(files: seq<seq<real>>, vdims: seq<seq<int>>): (lam: Lambda)
    requires |files| == |vdims|
    ensures |lam| == |vdims| && forall i :: 0 <= i < |vdims| ==> lam[i] == SiteValues(files[i], vdims[i], 0)
  {
    seq(|vdims|, i => SiteValues(SeqAt(files, i), SeqAt(vdims, i), 0))
  }

  lemma LoadedAt(files: seq<seq<real>>, vdims: seq<seq<int>>, i: int, j: int, k: int)
    requires |files| == |vdims| && DimsShaped(vdims)
    requires 0 <= i < |vdims| && 0 <= j < NLeg && 0 <= k < vdims[i][j]
    ensures LoadedLambda(files, vdims)[i][j][k] == ReadAt(files[i], PrefixSum(vdims[i], j) + k)
  {
    var site := SiteValues(files[i], vdims[i], 0);
    assert LoadedLambda(files, vdims)[i] == site;
    assert site[j] == LegValues(files[i], PrefixSum(vdims[i], j), vdims[i][j]);
  }

  /** Saving and loading gives back each lambda as written. */
  lemma LambdaRoundTrip(lam: Lambda, vdims: seq<seq<int>>, written: real -> real)
    requires LambdaShaped(lam, vdims)
    ensures var back := LoadedLambda(SavedLambda(lam, written), vdims);
      && LambdaShaped(back, vdims)
      && forall i, j, k :: 0 <= i < |lam| && 0 <= j < NLeg && 0 <= k < vdims[i][j] ==> back[i][j][k] == written(lam[i][j][k])
  {
    var files := SavedLambda(lam, written);
    var back := LoadedLambda(files, vdims);
    forall i, j, k | 0 <= i < |lam| && 0 <= j < NLeg && 0 <= k < vdims[i][j]
      ensures back[i][j][k] == written(lam[i][j][k])
    {
      RoundTripEntry(lam, vdims, written, i, j, k);
    }
    EntryShape(files, vdims);
  }

  lemma RoundTripEntry(lam: Lambda, vdims: seq<seq<int>>, written: real -> real, i: int, j: int, k: int)
    requires LambdaShaped(lam, vdims) && 0 <= i < |lam| && 0 <= j < NLeg && 0 <= k < vdims[i][j]
    ensures LoadedLambda(SavedLambda(lam, written), vdims)[i][j][k] == written(lam[i][j][k])
  {
    var files := SavedLambda(lam, written);
    ConcatEntry(lam[i], vdims[i], NLeg, j, k);
    var p := PrefixSum(vdims[i], j) + k;
    LoadedAt(files, vdims, i, j, k);
    assert files[i][p] == written(Concat(lam[i])[p]);
  }

  lemma EntryShape(files: seq<seq<real>>, vdims: seq<seq<int>>)
    requires |files| == |vdims| && DimsShaped(vdims)
    ensures LambdaShaped(LoadedLambda(files, vdims), vdims)
  {
    var lam := LoadedLambda(files, vdims);
    forall i | 0 <= i < |vdims|
      ensures PartsSized(lam[i], vdims[i])
    {
      assert lam[i] == SiteValues(files[i], vdims[i], 0);
    }
  }

  /** With exact text, saving and loading is the identity. */
  lemma LambdaRoundTripExact(lam: Lambda, vdims: seq<seq<int>>, written: real -> real)
    requires LambdaShaped(lam, vdims)
    requires forall x :: written(x) == x
    ensures LoadedLambda(SavedLambda(lam, written), vdims) == lam
  {
    LambdaRoundTrip(lam, vdims, written);
    LambdaExtensional(LoadedLambda(SavedLambda(lam, written), vdims), lam, vdims);
  }

  /** A missing lambda file leaves that site's lambdas at 0.0. */
  lemma MissingLambdaFile(files: seq<seq<real>>, vdims: seq<seq<int>>, i: int)
    requires |files| == |vdims| && DimsShaped(vdims) && 0 <= i < |files| && files[i] == []
    ensures var lam := LoadedLambda(files, vdims);
      forall j, k :: 0 <= j < NLeg && 0 <= k < vdims[i][j] ==> lam[i][j][k] == 0.0
  {
    forall j, k | 0 <= j < NLeg && 0 <= k < vdims[i][j]
      ensures LoadedLambda(files, vdims)[i][j][k] == 0.0
    {
      LoadedAt(files, vdims, i, j, k);
    }
  }

  /** Write each site's lambdas, leg by leg, one number per line. */
  method SaveLambda(lam: Lambda, vdims: seq<seq<int>>, written: real -> real) returns (files: seq<seq<real>>)
    requires LambdaShaped(lam, vdims)
    ensures files == SavedLambda(lam, written)
  {
    ghost var saved := SavedLambda(lam, written);
    files := [];
    for i := 0 to |lam|
      invariant |files| == i
      invariant forall i' :: 0 <= i' < i ==> files[i'] == saved[i']
    {
      assert PartsSized(lam[i], vdims[i]) && |vdims[i]| == NLeg;
      var text := SaveSiteLambda(lam[i], vdims[i], written);
      assert text == saved[i];
      files := files + [text];
    }
    assert |files| == |saved|;
  }

  /** One site's file: leg j's values follow those of legs 0 .. j - 1. */
  method SaveSiteLambda(site: seq<seq<real>>, dims: seq<int>, written: real -> real) returns (text: seq<real>)
    requires PartsSized(site, dims) && |dims| == NLeg
    ensures text == WrittenText(Concat(site), written)
  {
    text := [];
    for j := 0 to NLeg
      invariant text == WrittenText(ConcatPrefix(site, j), written)
    {
      for k := 0 to dims[j]
        invariant text == WrittenText(ConcatPrefix(site, j) + site[j][..k], written)
      {
        WrittenAppend(ConcatPrefix(site, j) + site[j][..k], [site[j][k]], written);
        assert site[j][..k + 1] == site[j][..k] + [site[j][k]];
        text := text + [written(site[j][k])];
      }
      assert site[j][..dims[j]] == site[j];
    }
  }

  /** What the first loop of the load reads from each site's file: as many
      values as the site's legs hold together. */
  function ReadParts(files: seq<seq<real>>, vdims: seq<seq<int>>): (parts: seq<seq<real>>)
    requires |files| == |vdims|
    ensures |parts| == |vdims| && forall i :: 0 <= i < |vdims| ==> parts[i] == LegValues(files[i], 0, Sum(vdims[i]))
  {
    seq(|vdims|, i => LegValues(SeqAt(files, i), 0, Sum(SeqAt(vdims, i))))
  }

  /** The first loop of the load: read every site's file, leg by leg, into one list. */
  method ReadLambdaFiles(files: seq<seq<real>>, vdims: seq<seq<int>>) returns (ls: seq<real>)
    requires |files| == |vdims| && DimsShaped(vdims)
    ensures ls == Concat(ReadParts(files, vdims))
  {
    ghost var parts := ReadParts(files, vdims);
    ls := [];
    for i := 0 to |vdims|
      invariant ls == ConcatPrefix(parts, i)
    {
      var read := ReadSiteFile(files[i], vdims[i]);
      ls := ls + read;
    }
  }

  /** One site's file: a fresh stream, legs 0..3 in turn. */
  method ReadSiteFile(file: seq<real>, dims: seq<int>) returns (read: seq<real>)
    requires |dims| == NLeg && NonNegative(dims)
    ensures read == LegValues(file, 0, Sum(dims))
  {
    read := [];
    var pos := 0;
    for j := 0 to NLeg
      invariant pos == PrefixSum(dims, j) && pos >= 0
      invariant read == LegValues(file, 0, pos)
    {
      PrefixSumMonotone(dims, j, j);
      var more;
      more, pos := ReadLeg(file, pos, dims[j]);
      LegValuesSplit(file, |read|, dims[j]);
      read := read + more;
    }
  }

  /** One leg: `n` further reads of the stream, which stands at `pos`. */
  method ReadLeg(file: seq<real>, pos0: int, n: nat) returns (read: seq<real>, pos: int)
    ensures read == LegValues(file, pos0, n) && pos == pos0 + n
  {
    read, pos := [], pos0;
    for k := 0 to n
      invariant pos == pos0 + k && |read| == k
      invariant forall k' :: 0 <= k' < k ==> read[k'] == ReadAt(file, pos0 + k')
    {
      var temp := 0.0;
      if 0 <= pos < |file| {
        temp := file[pos];
      }
      read := read + [temp];
      pos := pos + 1;
    }
  }

  /** Reading p values and then n more is reading p + n values. */
  lemma LegValuesSplit(file: seq<real>, p: nat, n: nat)
    ensures LegValues(file, 0, p) + LegValues(file, p, n) == LegValues(file, 0, p + n)
  {
    var a, b, c := LegValues(file, 0, p), LegValues(file, p, n), LegValues(file, 0, p + n);
    forall q | 0 <= q < p + n
      ensures (a + b)[q] == c[q]
    {
      if q >= p {
        assert (a + b)[q] == b[q - p];
      }
    }
  }

  /** The start of part i in the concatenation of `parts`. */
  lemma {:induction false} ConcatPrefixGrows(l: seq<seq<real>>, m: int, n: int)
    requires 0 <= m <= n <= |l|
    ensures ConcatPrefix(l, m) <= ConcatPrefix(l, n)
    decreases n
  {
    if m < n {
      ConcatPrefixGrows(l, m, n - 1);
    }
  }

  /** Part i is the slice of the concatenation that starts after parts 0..i-1. */
  lemma ConcatSlice(l: seq<seq<real>>, i: int)
    requires 0 <= i < |l|
    ensures |ConcatPrefix(l, i + 1)| == |ConcatPrefix(l, i)| + |l[i]| <= |Concat(l)|
    ensures Concat(l)[|ConcatPrefix(l, i)|..|ConcatPrefix(l, i)| + |l[i]|] == l[i]
  {
    ConcatPrefixGrows(l, i + 1, |l|);
    assert ConcatPrefix(l, i + 1) == ConcatPrefix(l, i) + l[i];
  }

  /** `ls` is the values of all sites one after the other, site i holding as
      many as its legs together. */
  predicate Parted(ls: seq<real>, vdims: seq<seq<int>>, parts: seq<seq<real>>)
  {
    && |parts| == |vdims| && ls == Concat(parts)
    && forall i :: 0 <= i < |vdims| ==> |parts[i]| == Sum(vdims[i])
  }

  /** The second loop of the load: overwrite the lambdas already allocated
      with the list, using one running index. When the list is the reads of
      all sites one after the other, site i gets its own reads, leg by leg. */
  method DistributeLambda(ls: seq<real>, vdims: seq<seq<int>>, lam0: Lambda, ghost parts: seq<seq<real>>)
    returns (lam: Lambda)
    requires LambdaShaped(lam0, vdims) && Parted(ls, vdims, parts)
    ensures |lam| == |vdims|
    ensures forall i :: 0 <= i < |vdims| ==> lam[i] == SiteValues(parts[i], vdims[i], 0)
  {
    lam := lam0;
    var index := 0;
    for i := 0 to |vdims|
      invariant |lam| == |vdims|
      invariant index == |ConcatPrefix(parts, i)|
      invariant forall i' :: 0 <= i' < i ==> lam[i'] == SiteValues(parts[i'], vdims[i'], 0)
    {
      SiteReady(ls, vdims, lam0, parts, i);
      var site;
      site, index := DistributeSite(ls, vdims[i], lam0[i], index, parts[i]);
      lam := lam[i := site];
    }
  }

  /** Before site i of the second loop: the index stands where site i's values begin. */
  lemma SiteReady(ls: seq<real>, vdims: seq<seq<int>>, lam0: Lambda, parts: seq<seq<real>>, i: int)
    requires LambdaShaped(lam0, vdims) && Parted(ls, vdims, parts) && 0 <= i < |vdims|
    ensures SiteInput(ls, vdims[i], lam0[i], |ConcatPrefix(parts, i)|, parts[i])
    ensures |ConcatPrefix(parts, i + 1)| == |ConcatPrefix(parts, i)| + |parts[i]|
  {
    ConcatSlice(parts, i);
  }

  /** The list holds the site's values `part` from `start` on, and the site's
      allocated lambdas have the site's dimensions. */
  predicate SiteInput(ls: seq<real>, dims: seq<int>, site0: seq<seq<real>>, start: int, part: seq<real>)
  {
    && |dims| == NLeg && NonNegative(dims) && PartsSized(site0, dims)
    && 0 <= start && start + |part| <= |ls| && ls[start..start + |part|] == part && |part| == Sum(dims)
  }

  /** One site of the second loop: legs 0..3 in turn, reading the site's
      values `part`, which the list holds from `start` on. */
  method DistributeSite(ls: seq<real>, dims: seq<int>, site0: seq<seq<real>>, start: int, ghost part: seq<real>)
    returns (site: seq<seq<real>>, index: int)
    requires SiteInput(ls, dims, site0, start, part)
    ensures site == SiteValues(part, dims, 0) && index == start + |part|
  {
    site, index := site0, start;
    for j := 0 to NLeg
      invariant PartsSized(site, dims)
      invariant index == start + PrefixSum(dims, j)
      invariant forall j' :: 0 <= j' < j ==> site[j'] == LegValues(part, PrefixSum(dims, j'), dims[j'])
    {
      PrefixSumMonotone(dims, j, j);
      PrefixSumMonotone(dims, j + 1, NLeg);
      var leg;
      leg, index := DistributeLeg(ls, site[j], index, part, PrefixSum(dims, j));
      site := site[j := leg];
    }
    SiteFromLegs(part, dims, 0, site);
  }

  lemma SiteFromLegs(ls: seq<real>, dims: seq<int>, at: int, site: seq<seq<real>>)
    requires |site| == |dims|
    requires forall j :: 0 <= j < |dims| ==> site[j] == LegValues(ls, at + PrefixSum(dims, j), dims[j])
    ensures site == SiteValues(ls, dims, at)
  {
    var expected := SiteValues(ls, dims, at);
    assert |expected| == |dims|;
    forall j | 0 <= j < |dims|
      ensures site[j] == expected[j]
    {
    }
  }

  /** One leg of the second loop: every entry of the leg, in order; the list
      holds the site's values `part` from `start - from` on. */
  method DistributeLeg(ls: seq<real>, leg0: seq<real>, start: int, ghost part: seq<real>, ghost from: int)
    returns (leg: seq<real>, index: int)
    requires 0 <= from && from + |leg0| <= |part|
    requires 0 <= start - from && start - from + |part| <= |ls| && ls[start - from..start - from + |part|] == part
    ensures leg == LegValues(part, from, |leg0|) && index == start + |leg0|
  {
    leg, index := leg0, start;
    for k := 0 to |leg0|
      invariant |leg| == |leg0| && index == start + k
      invariant forall k' :: 0 <= k' < k ==> leg[k'] == part[from + k']
    {
      assert ls[index] == part[from + k];
      leg := leg[k := ls[index]];
      index := index + 1;
    }
  }

  /** Loading: read all the files, then hand the values out. */
  method LoadLambda(files: seq<seq<real>>, vdims: seq<seq<int>>) returns (lam: Lambda)
    requires |files| == |vdims| && DimsShaped(vdims)
    ensures lam == LoadedLambda(files, vdims)
  {
    var ls := ReadLambdaFiles(files, vdims);
    ghost var parts := ReadParts(files, vdims);
    ReadPartsSized(files, vdims);
    lam := DistributeLambda(ls, vdims, InitialLambda(vdims), parts);
    forall i | 0 <= i < |vdims|
      ensures lam[i] == LoadedLambda(files, vdims)[i]
    {
      ReadThenSplit(files[i], vdims[i]);
    }
  }

  lemma ReadPartsSized(files: seq<seq<real>>, vdims: seq<seq<int>>)
    requires |files| == |vdims| && DimsShaped(vdims)
    ensures forall i :: 0 <= i < |vdims| ==> |ReadParts(files, vdims)[i]| == Sum(vdims[i])
  {
    forall i | 0 <= i < |vdims|
      ensures |ReadParts(files, vdims)[i]| == Sum(vdims[i])
    {
      PrefixSumMonotone(vdims[i], 0, NLeg);
    }
  }

  /** Reading a site's values first and splitting them into legs afterwards
      gives the legs read straight from the file. */
  lemma ReadThenSplit(file: seq<real>, dims: seq<int>)
    requires |dims| == NLeg && NonNegative(dims)
    ensures SiteValues(LegValues(file, 0, Sum(dims)), dims, 0) == SiteValues(file, dims, 0)
  {
    var read := LegValues(file, 0, Sum(dims));
    var a, b := SiteValues(read, dims, 0), SiteValues(file, dims, 0);
    forall j | 0 <= j < NLeg
      ensures a[j] == b[j]
    {
      forall k | 0 <= k < dims[j]
        ensures a[j][k] == b[j][k]
      {
        EntryInside(dims, j, k);
        SiteValuesAt(read, dims, 0, j, k);
        SiteValuesAt(file, dims, 0, j, k);
      }
    }
  }

  lemma SiteValuesAt(ls: seq<real>, dims: seq<int>, at: int, j: int, k: int)
    requires 0 <= j < |dims| && 0 <= k < dims[j]
    ensures SiteValues(ls, dims, at)[j][k] == ReadAt(ls, at + PrefixSum(dims, j) + k)
  {
    var start := at + PrefixSum(dims, j);
    assert SiteValues(ls, dims, at)[j] == LegValues(ls, start, dims[j]);
    assert LegValues(ls, start, dims[j])[k] == ReadAt(ls, start + k);
  }

  /** Two shaped lambdas with the same entries are equal. */
  lemma LambdaExtensional(a: Lambda, b: Lambda, vdims: seq<seq<int>>)
    requires LambdaShaped(a, vdims) && LambdaShaped(b, vdims)
    requires forall i, j, k :: 0 <= i < |vdims| && 0 <= j < NLeg && 0 <= k < vdims[i][j] ==> a[i][j][k] == b[i][j][k]
    ensures a == b
  {
    forall i | 0 <= i < |a|
      ensures a[i] == b[i]
    {
      forall j | 0 <= j < NLeg
        ensures a[i][j] == b[i][j]
      {
        assert |a[i][j]| == |b[i][j]|;
      }
    }
  }

  // ---------------------------------------------------------------------------
  // The checkpoint directory: save_tensors and the load branch of the start-up
  // ---------------------------------------------------------------------------

  datatype Outcome<T> = Failure(message: string) | Success(value: T)

  /** What the program finds on disk: the directories that exist, the tensor
      files (each holds the one tensor saved in it) and the text files (each
      the list of numbers it holds). */
  datatype Disk = Disk(dirs: set<string>, tensors: map<string, Tensor>, texts: map<string, seq<real>>)

  /** The nine kinds in the order the program saves and loads them. */
  const Kinds: seq<Kind> := [SiteTensor, EdgeTop, EdgeRight, EdgeBottom, EdgeLeft, Corner1, Corner2, Corner3, Corner4]

  /** Where each kind sits in `Kinds`. */
  function Position(k: Kind): (j: int)
    ensures 0 <= j < |Kinds| && Kinds[j] == k
  {
    match k
    case SiteTensor => 0
    case EdgeTop => 1
    case EdgeRight => 2
    case EdgeBottom => 3
    case EdgeLeft => 4
    case Corner1 => 5
    case Corner2 => 6
    case Corner3 => 7
    case Corner4 => 8
  }

  /** So every kind appears in `Kinds` once. */
  lemma PositionOfKinds(j: int)
    requires 0 <= j < |Kinds|
    ensures Position(Kinds[j]) == j
  {
  }

  /** The tensor of kind k kept for site i. */
  function TensorOf(env: Env, tn: seq<Tensor>, k: Kind, i: int): Tensor
    requires EnvSized(env, |tn|) && 0 <= i < |tn|
  {
    match k
    case SiteTensor => tn[i]
    case EdgeTop => env.eTt[i]
    case EdgeRight => env.eTr[i]
    case EdgeBottom => env.eTb[i]
    case EdgeLeft => env.eTl[i]
    case Corner1 => env.c1[i]
    case Corner2 => env.c2[i]
    case Corner3 => env.c3[i]
    case Corner4 => env.c4[i]
  }

  /** Every tensor of sites [0, n) is in its own file. */
  ghost predicate TensorsSaved(files: map<string, Tensor>, dir: string, env: Env, tn: seq<Tensor>, n: int)
    requires EnvSized(env, |tn|) && n <= |tn|
  {
    forall k: Kind, i :: 0 <= i < n ==> FileName(dir, k, i) in files && files[FileName(dir, k, i)] == TensorOf(env, tn, k, i)
  }

  /** f is none of the tensor files of sites [0, n). */
  ghost predicate NotTensorFile(dir: string, n: int, f: string)
  {
    forall k: Kind, i :: 0 <= i < n ==> f != FileName(dir, k, i)
  }

  /** Every file that is not a tensor file of sites [0, n) is as it was. */
  ghost predicate TensorFilesOnly(files0: map<string, Tensor>, files: map<string, Tensor>, dir: string, n: int)
  {
    forall f :: NotTensorFile(dir, n, f) ==> (f in files <==> f in files0) && (f in files0 ==> files[f] == files0[f])
  }

  /** Text file i of `dir` holds texts[i]. */
  ghost predicate LambdasSaved(files: map<string, seq<real>>, dir: string, texts: seq<seq<real>>)
  {
    forall i :: 0 <= i < |texts| ==> LambdaFileName(dir, i) in files && files[LambdaFileName(dir, i)] == texts[i]
  }

  /** Every text file that is not a lambda file of sites [0, n) is as it was. */
  ghost predicate LambdaFilesOnly(files0: map<string, seq<real>>, files: map<string, seq<real>>, dir: string, n: int)
  {
    forall f :: (forall i :: 0 <= i < n ==> f != LambdaFileName(dir, i)) ==>
      (f in files <==> f in files0) && (f in files0 ==> files[f] == files0[f])
  }

  /** f is none of the nine files of site i. */
  ghost predicate NotSiteFile(dir: string, i: nat, f: string)
  {
    forall k: Kind :: f != FileName(dir, k, i)
  }

  /** The first j kinds of site i are in their files. */
  ghost predicate KindsSaved(files: map<string, Tensor>, dir: string, env: Env, tn: seq<Tensor>, i: nat, j: int)
    requires EnvSized(env, |tn|) && i < |tn| && j <= |Kinds|
  {
    forall j' :: 0 <= j' < j ==>
      FileName(dir, Kinds[j'], i) in files && files[FileName(dir, Kinds[j'], i)] == TensorOf(env, tn, Kinds[j'], i)
  }

  /** Writing kind j keeps the kinds before it, whose files are different. */
  lemma KindsSavedGrow(files: map<string, Tensor>, dir: string, env: Env, tn: seq<Tensor>, i: nat, j: int)
    requires EnvSized(env, |tn|) && i < |tn| && 0 <= j < |Kinds|
    requires KindsSaved(files, dir, env, tn, i, j)
    ensures KindsSaved(files[FileName(dir, Kinds[j], i) := TensorOf(env, tn, Kinds[j], i)], dir, env, tn, i, j + 1)
  {
    forall j' | 0 <= j' < j
      ensures FileName(dir, Kinds[j'], i) != FileName(dir, Kinds[j], i)
    {
      PositionOfKinds(j');
      PositionOfKinds(j);
      TensorFileNamesDistinct(dir, Kinds[j'], i, Kinds[j], i);
    }
  }

  /** The nine files of site i, written kind by kind. */
  method SaveSiteTensors(files0: map<string, Tensor>, dir: string, env: Env, tn: seq<Tensor>, i: nat)
    returns (files: map<string, Tensor>)
    requires EnvSized(env, |tn|) && i < |tn|
    ensures forall k :: FileName(dir, k, i) in files && files[FileName(dir, k, i)] == TensorOf(env, tn, k, i)
    ensures forall f :: NotSiteFile(dir, i, f) ==> (f in files <==> f in files0) && (f in files0 ==> files[f] == files0[f])
  {
    files := files0;
    for j := 0 to |Kinds|
      invariant KindsSaved(files, dir, env, tn, i, j)
      invariant forall f :: NotSiteFile(dir, i, f) ==> (f in files <==> f in files0) && (f in files0 ==> files[f] == files0[f])
    {
      KindsSavedGrow(files, dir, env, tn, i, j);
      files := files[FileName(dir, Kinds[j], i) := TensorOf(env, tn, Kinds[j], i)];
    }
    forall k
      ensures FileName(dir, k, i) in files && files[FileName(dir, k, i)] == TensorOf(env, tn, k, i)
    {
      assert Kinds[Position(k)] == k;
    }
  }

  /** A file of site i is none of the files of the sites before it. */
  lemma SiteFilesApart(dir: string, i: nat, f: string)
    requires !NotSiteFile(dir, i, f)
    ensures NotTensorFile(dir, i, f)
  {
    var k :| f == FileName(dir, k, i);
    forall k', i' | 0 <= i' < i
      ensures f != FileName(dir, k', i')
    {
      TensorFileNamesDistinct(dir, k, i, k', i');
    }
  }

  /** The nine tensors of every site, site by site. */
  method SaveAllTensors(files0: map<string, Tensor>, dir: string, env: Env, tn: seq<Tensor>)
    returns (files: map<string, Tensor>)
    requires EnvSized(env, |tn|)
    ensures TensorsSaved(files, dir, env, tn, |tn|)
    ensures TensorFilesOnly(files0, files, dir, |tn|)
  {
    files := files0;
    for i := 0 to |tn|
      invariant TensorsSaved(files, dir, env, tn, i)
      invariant TensorFilesOnly(files0, files, dir, i)
    {
      ghost var before := files;
      files := SaveSiteTensors(files, dir, env, tn, i);
      forall f | !NotSiteFile(dir, i, f)
        ensures NotTensorFile(dir, i, f)
      {
        SiteFilesApart(dir, i, f);
      }
      assert forall f :: NotTensorFile(dir, i + 1, f) ==> NotTensorFile(dir, i, f) && NotSiteFile(dir, i, f);
    }
  }

  /** The lambda text of every site to its file. */
  method SaveLambdaTexts(files0: map<string, seq<real>>, dir: string, texts: seq<seq<real>>)
    returns (files: map<string, seq<real>>)
    ensures LambdasSaved(files, dir, texts)
    ensures LambdaFilesOnly(files0, files, dir, |texts|)
  {
    files := files0;
    for i := 0 to |texts|
      invariant LambdasSaved(files, dir, texts[..i])
      invariant LambdaFilesOnly(files0, files, dir, i)
    {
      forall i' | 0 <= i' < i
        ensures LambdaFileName(dir, i') != LambdaFileName(dir, i)
      {
        LambdaFileNamesDistinct(dir, i', i);
      }
      files := files[LambdaFileName(dir, i) := texts[i]];
    }
    assert texts[..|texts|] == texts;
  }

  /** save_tensors: nothing when no directory is configured; otherwise the
      directory is created if missing, the nine tensors of every site go to
      their files and the lambdas of every site to its text file. Nothing else
      on disk changes. */
  method SaveTensors(disk0: Disk, dir: string, env: Env, tn: seq<Tensor>, lam: Lambda, vdims: seq<seq<int>>,
                     written: real -> real)
    returns (disk: Disk)
    requires EnvSized(env, |tn|) && LambdaShaped(lam, vdims) && |lam| == |tn|
    ensures dir == "" ==> disk == disk0
    ensures dir != "" ==>
      && disk.dirs == disk0.dirs + {dir}
      && TensorsSaved(disk.tensors, dir, env, tn, |tn|)
      && TensorFilesOnly(disk0.tensors, disk.tensors, dir, |tn|)
      && LambdasSaved(disk.texts, dir, SavedLambda(lam, written))
      && LambdaFilesOnly(disk0.texts, disk.texts, dir, |tn|)
  {
    if dir == "" {
      return disk0;
    }
    var files := SaveAllTensors(disk0.tensors, dir, env, tn);
    var texts := SaveLambda(lam, vdims, written);
    var textFiles := SaveLambdaTexts(disk0.texts, dir, texts);
    disk := Disk(disk0.dirs + {dir}, files, textFiles);
  }

  /** The tensor a load finds in the file of kind k at site i. */
  function FileTensor(disk: Disk, dir: string, k: Kind, i: nat): Tensor
  {
    var f := FileName(dir, k, i);
    if f in disk.tensors then disk.tensors[f] else Allocate([])
  }

  /** The nine files of site i exist. */
  ghost predicate SiteFilesPresent(disk: Disk, dir: string, i: nat)
  {
    forall k: Kind :: FileName(dir, k, i) in disk.tensors
  }

  ghost predicate AllTensorFiles(disk: Disk, dir: string, n: int)
  {
    forall i :: 0 <= i < n ==> SiteFilesPresent(disk, dir, i)
  }

  /** The tensors of kind k read from the files of sites [0, n). */
  function FileColumn(disk: Disk, dir: string, k: Kind, n: nat): (col: seq<Tensor>)
    ensures |col| == n && forall i :: 0 <= i < n ==> col[i] == FileTensor(disk, dir, k, i)
  {
    seq(n, i requires 0 <= i < n => FileTensor(disk, dir, k, i))
  }

  lemma ColumnGrows(disk: Disk, dir: string, k: Kind, n: nat)
    ensures FileColumn(disk, dir, k, n + 1) == FileColumn(disk, dir, k, n) + [FileTensor(disk, dir, k, n)]
  {
  }

  /** The site tensors read from the files. */
  function FileSites(disk: Disk, dir: string, n: nat): (tn: seq<Tensor>)
    ensures |tn| == n
  {
    FileColumn(disk, dir, SiteTensor, n)
  }

  /** The environment read from the files. */
  function FileEnv(disk: Disk, dir: string, n: nat): (env: Env)
    ensures EnvSized(env, n)
  {
    Env(FileColumn(disk, dir, Corner1, n), FileColumn(disk, dir, Corner2, n),
        FileColumn(disk, dir, Corner3, n), FileColumn(disk, dir, Corner4, n),
        FileColumn(disk, dir, EdgeTop, n), FileColumn(disk, dir, EdgeRight, n),
        FileColumn(disk, dir, EdgeBottom, n), FileColumn(disk, dir, EdgeLeft, n))
  }

  /** The environment with one more site, its nine tensors given in `Kinds` order. */
  function AddSite(env: Env, t: seq<Tensor>): Env
    requires |t| == |Kinds|
  {
    Env(env.c1 + [t[5]], env.c2 + [t[6]], env.c3 + [t[7]], env.c4 + [t[8]],
        env.eTt + [t[1]], env.eTr + [t[2]], env.eTb + [t[3]], env.eTl + [t[4]])
  }

  lemma FileEnvGrows(disk: Disk, dir: string, n: nat, t: seq<Tensor>)
    requires |t| == |Kinds| && forall j :: 0 <= j < |Kinds| ==> t[j] == FileTensor(disk, dir, Kinds[j], n)
    ensures FileEnv(disk, dir, n + 1) == AddSite(FileEnv(disk, dir, n), t)
    ensures FileSites(disk, dir, n + 1) == FileSites(disk, dir, n) + [t[0]]
  {
    ColumnGrows(disk, dir, SiteTensor, n);
    ColumnGrows(disk, dir, EdgeTop, n);
    ColumnGrows(disk, dir, EdgeRight, n);
    ColumnGrows(disk, dir, EdgeBottom, n);
    ColumnGrows(disk, dir, EdgeLeft, n);
    ColumnGrows(disk, dir, Corner1, n);
    ColumnGrows(disk, dir, Corner2, n);
    ColumnGrows(disk, dir, Corner3, n);
    ColumnGrows(disk, dir, Corner4, n);
  }

  /** The contents of the lambda files of sites [0, n); a missing file reads as empty. */
  function LambdaTexts(disk: Disk, dir: string, n: nat): (texts: seq<seq<real>>)
    ensures |texts| == n
  {
    seq(n, i requires 0 <= i < n => var f := LambdaFileName(dir, i); if f in disk.texts then disk.texts[f] else [])
  }

  /** What the load branch puts in place of the allocated tensors. */
  datatype Loaded = Loaded(env: Env, tn: seq<Tensor>, lambda: Lambda)

  /** Read the nine files of site i kind by kind, stopping at the first one
      that is missing. */
  method LoadSiteTensors(disk: Disk, dir: string, i: nat) returns (r: Outcome<seq<Tensor>>)
    ensures r.Success? <==> SiteFilesPresent(disk, dir, i)
    ensures r.Success? ==> |r.value| == |Kinds| && forall j :: 0 <= j < |Kinds| ==> r.value[j] == FileTensor(disk, dir, Kinds[j], i)
    ensures r.Failure? ==> exists k :: r.message == FileName(dir, k, i) && r.message !in disk.tensors
  {
    var got: seq<Tensor> := [];
    for j := 0 to |Kinds|
      invariant |got| == j
      invariant forall j' :: 0 <= j' < j ==> FileName(dir, Kinds[j'], i) in disk.tensors && got[j'] == FileTensor(disk, dir, Kinds[j'], i)
    {
      var f := FileName(dir, Kinds[j], i);
      if f !in disk.tensors {
        return Failure(f);
      }
      got := got + [disk.tensors[f]];
    }
    forall k
      ensures FileName(dir, k, i) in disk.tensors
    {
      assert Kinds[Position(k)] == k;
    }
    return Success(got);
  }

  /** One more site: its nine tensors appended to what the sites before it gave. */
  method LoadNextSite(disk: Disk, dir: string, i: nat, env: Env, tn: seq<Tensor>) returns (r: Outcome<(Env, seq<Tensor>)>)
    requires env == FileEnv(disk, dir, i) && tn == FileSites(disk, dir, i)
    ensures r.Success? <==> SiteFilesPresent(disk, dir, i)
    ensures r.Success? ==> r.value == (FileEnv(disk, dir, i + 1), FileSites(disk, dir, i + 1))
  {
    var site := LoadSiteTensors(disk, dir, i);
    if site.Failure? {
      return Failure(site.message);
    }
    FileEnvGrows(disk, dir, i, site.value);
    return Success((AddSite(env, site.value), tn + [site.value[0]]));
  }

  /** The tensor files of sites [0, n), site by site, stopping at the first
      missing file. */
  method LoadAllTensors(disk: Disk, dir: string, n: nat) returns (r: Outcome<(Env, seq<Tensor>)>)
    ensures r.Success? <==> AllTensorFiles(disk, dir, n)
    ensures r.Success? ==> r.value == (FileEnv(disk, dir, n), FileSites(disk, dir, n))
  {
    var env := FileEnv(disk, dir, 0);
    var tn: seq<Tensor> := [];
    for i := 0 to n
      invariant env == FileEnv(disk, dir, i) && tn == FileSites(disk, dir, i)
      invariant AllTensorFiles(disk, dir, i)
    {
      var next := LoadNextSite(disk, dir, i, env, tn);
      if next.Failure? {
        return Failure(next.message);
      }
      env, tn := next.value.0, next.value.1;
    }
    return Success((env, tn));
  }

  /** The load branch: an error when the directory does not exist or a
      tensor file is missing; otherwise every tensor comes from its file and
      the lambdas from the text files, read in the save order. */
  method LoadTensors(disk: Disk, dir: string, n: nat, vdims: seq<seq<int>>) returns (r: Outcome<Loaded>)
    requires |vdims| == n && DimsShaped(vdims)
    ensures dir !in disk.dirs ==> r == Failure(dir + " does not exists.")
    ensures r.Success? <==> dir in disk.dirs && AllTensorFiles(disk, dir, n)
    ensures r.Success? ==> r.value == Loaded(FileEnv(disk, dir, n), FileSites(disk, dir, n), LoadedLambda(LambdaTexts(disk, dir, n), vdims))
  {
    if dir !in disk.dirs {
      return Failure(dir + " does not exists.");
    }
    var tensors := LoadAllTensors(disk, dir, n);
    if tensors.Failure? {
      return Failure(tensors.message);
    }
    var lam := LoadLambda(LambdaTexts(disk, dir, n), vdims);
    return Success(Loaded(tensors.value.0, tensors.value.1, lam));
  }

  /** The files of a saved kind read back as the saved column. */
  lemma ColumnSaved(disk: Disk, dir: string, env: Env, tn: seq<Tensor>, k: Kind, col: seq<Tensor>)
    requires EnvSized(env, |tn|) && TensorsSaved(disk.tensors, dir, env, tn, |tn|)
    requires |col| == |tn| && forall i :: 0 <= i < |tn| ==> col[i] == TensorOf(env, tn, k, i)
    ensures FileColumn(disk, dir, k, |tn|) == col
  {
  }

  /** A load from a directory that a save wrote gives back the saved tensors
      and reads each lambda file as saved (LambdaRoundTrip then gives the
      lambdas as written). */
  lemma CheckpointRoundTrip(disk: Disk, dir: string, env: Env, tn: seq<Tensor>, lam: Lambda,
                            vdims: seq<seq<int>>, written: real -> real)
    requires EnvSized(env, |tn|) && LambdaShaped(lam, vdims) && |lam| == |tn|
    requires TensorsSaved(disk.tensors, dir, env, tn, |tn|)
    requires LambdasSaved(disk.texts, dir, SavedLambda(lam, written))
    ensures AllTensorFiles(disk, dir, |tn|)
    ensures FileEnv(disk, dir, |tn|) == env && FileSites(disk, dir, |tn|) == tn
    ensures LambdaTexts(disk, dir, |tn|) == SavedLambda(lam, written)
  {
    ColumnSaved(disk, dir, env, tn, SiteTensor, tn);
    ColumnSaved(disk, dir, env, tn, EdgeTop, env.eTt);
    ColumnSaved(disk, dir, env, tn, EdgeRight, env.eTr);
    ColumnSaved(disk, dir, env, tn, EdgeBottom, env.eTb);
    ColumnSaved(disk, dir, env, tn, EdgeLeft, env.eTl);
    ColumnSaved(disk, dir, env, tn, Corner1, env.c1);
    ColumnSaved(disk, dir, env, tn, Corner2, env.c2);
    ColumnSaved(disk, dir, env, tn, Corner3, env.c3);
    ColumnSaved(disk, dir, env, tn, Corner4, env.c4);
  }
}
