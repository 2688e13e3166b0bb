# TeNeS solver bookkeeping, modelled in Dafny

TeNeS computes ground states and observables of two-dimensional quantum
lattice models. It represents the state as a tensor product state (PEPS) on
a unit cell of `N_UNIT` sites and uses corner transfer matrices (CTM) as the
environment: four corners `C1..C4` and four edges `eTt, eTr, eTb, eTl` per site.
The solver class in `src/tenes.cpp` drives this numerical work. Around its
calls into the tensor library it keeps exact, integer-valued bookkeeping:
- which tensors are allocated, and with which shapes;
- how the bond spectra (`lambda_tensor`) are written back after each update;
- which corner and edge tensors each bond kernel receives;
- which rows or columns of the environment are refreshed;
- how two-site blocks are laid out, how their norms are cached, and which
  correlation records are emitted;
- how checkpoints are named, flattened and read back.

This project models that bookkeeping. Every numerical routine is a
function-valued parameter: the simple and full bond kernels, the CTM pass, the
moves, the contractions, the SVD and the transposition. The model proves what
the bookkeeping guarantees whatever those routines return.

Modules, one per concern of the source:

| module | file | concern |
|---|---|---|
| `Bonds` | bond.dfy | the `Bond` key and its lexicographic order |
| `Tensors` | tensor.dfy | shapes, the mixed-radix flat index `nr`, the identity operator |
| `Lattices` | lattice.dfy | the unit cell (its lattice helpers are function-valued fields), its row-by-row site numbering, and the opposite leg |
| `Operators` | operators.dfy | operator records, group counts, the `site_ops_indices` table |
| `Environment` | environment.dfy | CTM tensors per site, sides and legs, the fast-update refresh rule |
| `FullUpdateTable` | fullupdate.dfy | which corners and edges each bond direction hands to the full-update kernel |
| `OneSite` | onesite.dfy | the one-site table with undefined entries, and its saver |
| `TwoSite` | twosite.dfy | block layout, the norm cache, results keyed by `Bond` |
| `Correlations` | correlation.dfy | right-site arithmetic, record emission and its order |
| `Checkpoint` | checkpoint.dfy | file names, the tensor files, the lambda text files (save and load) |
| `Solver` | tenes.dfy | allocation, the update loops, and the `TeNeS` class tying them together |

The class `Solver.TeNeS` holds the state the source updates in place:
- the site tensors `tn`;
- the environment `env`;
- the spectra `lambda`;
- the identities;
- the group counts;
- the operator table.

Each of its methods is proved against a specification function of the
old state, for example `SimpleUpdate` against `SimpleUpdated` and
`FullUpdate` against `FullUpdated`. The frame and shape properties are then
proved about those functions as lemmas.

## Model

| member | source | states |
|---|---|---|
| Bonds.LessIrreflexive | src/tenes.cpp:45-48 | no bond key is below itself |
| Bonds.LessAsymmetric | src/tenes.cpp:45-48 | two keys are never below each other |
| Bonds.LessTransitive | src/tenes.cpp:45-48 | the key order is transitive, so it is a strict order fit for a map |
| Bonds.LessTrichotomy | src/tenes.cpp:45-48 | any two keys are equal or one is below the other: the order is total, so equal keys address one map entry |
| Bonds.EquivalentIsEquality | src/tenes.cpp:45-48 | neither below the other holds exactly for equal (source, dx, dy) |
| Bonds.LessBySourceFirst | src/tenes.cpp:45-48 | for different source sites the order is decided by the source site alone |
| Bonds.Less | src/tenes.cpp:45-48 | `operator<` on `Bond`: (source_site, dx, dy) compared lexicographically, as `std::tie` does |
| Bonds.Equivalent | src/tenes.cpp:45-48 | two keys are the same map key when neither is less than the other |
| Lattices.OppositeLeg | src/tenes.cpp:366 | the target leg is a leg in 0..3, differs from the source leg, and lies two legs away |
| Lattices.OppositeLegInvolution | src/tenes.cpp:366 | the opposite of the opposite leg is the leg itself |
| Lattices.OppositeLegKeepsAxis | src/tenes.cpp:366 | a bond is horizontal from one end exactly when it is horizontal from the other |
| Tensors.Allocate | src/tenes.cpp:223-231 | an allocated tensor has exactly the requested shape and no entries set yet |
| Tensors.FlatIndexBounds | src/tenes.cpp:286-290 | the mixed-radix index of an in-range tuple lies in [0, product of the dimensions) |
| Tensors.UnflattenFlatIndex | src/tenes.cpp:286-290 | decoding the mixed-radix index of a tuple gives back the tuple |
| Tensors.FlatIndexUnflatten | src/tenes.cpp:286-290 | every number below the product decodes to an in-range tuple that encodes back to it |
| Tensors.FlatIndexBijective | src/tenes.cpp:286-290 | the mixed-radix index is a bijection between in-range tuples and [0, product) |
| Tensors.SiteFlatIndex | src/tenes.cpp:286-290 | for five legs the generic index equals `nr` as the program writes it out |
| Tensors.SiteVolume | src/tenes.cpp:262 | the volume of a site tensor is vdim0*vdim1*vdim2*vdim3*pdim, the length of the random buffers |
| Tensors.IdentityOp | src/tenes.cpp:239-245 | the identity operator of a site has shape (pdim, pdim) and pdim*pdim entries |
| Tensors.IdentityOpEntry | src/tenes.cpp:240-244 | entry (j, k) of the identity operator is 1.0 when j == k and 0.0 otherwise |
| Operators.CountGroups | src/tenes.cpp:188-198 | the count is non-negative, exceeds every operator's group, and is 0 or one more than some operator's group (so it is max group + 1, or 0 without operators) |
| Operators.LastIndex | src/tenes.cpp:200-204 | the table value is -1 exactly when no operator has that site and group; otherwise it is the last such operator |
| Operators.BuildSiteOpsIndices | src/tenes.cpp:200-204 | the loop fills an N_UNIT by num table whose every entry is the index of the last operator assigned there, or -1 |
| Operators.SiteOpsIndexMeaning | src/tenes.cpp:77-79 | `siteoperator_index(s, g)` is -1 iff no operator has source s and group g; otherwise the operator it names has exactly that site and group |
| Environment.BondRefreshLines | src/tenes.cpp:490-502 | every refreshed column lies in [0, LX) and every refreshed row in [0, LY) |
| Environment.BondRefreshes | src/tenes.cpp:488-506 | without the fast full update one full CTM pass; with it, a left move of column source % LX then a right move of column target % LX for a horizontal bond, or a top move of row source / LX then a bottom move of row target / LX for a vertical one |
| Environment.ApplyRefreshes | src/tenes.cpp:488-506 | the refreshes run in order, each on the environment the previous one left; no refresh leaves the environment as it was |
| FullUpdateTable.OrientationOf | src/tenes.cpp:409-484 | every bond direction hands four corners and six edges to the kernel |
| FullUpdateTable.RolesByPosition | src/tenes.cpp:424-479 | in every direction the first and last corners and edges 0, 4 and 5 come from the source site; the rest come from the target |
| FullUpdateTable.CornersArePermutation | src/tenes.cpp:409-484 | in every direction the four corners are C1..C4 each once, two from the source and two from the target |
| FullUpdateTable.EdgesBySite | src/tenes.cpp:409-484 | the target gives its three edges other than the one facing the source; its edge on side source_leg is among them. The source gives its three edges other than the one facing the target; its edge on side (source_leg+2)%4 is among them |
| Solver.SiteShape | src/tenes.cpp:220-223 | a site tensor has five legs (four virtual, one physical), each of positive dimension |
| Solver.AllocatedShapes | src/tenes.cpp:219-231 | after allocation every corner is CHI x CHI, the edge on a side is (CHI, CHI, vdim, vdim) for that side's leg, and the site tensor's volume is the nr range |
| Solver.SiteEntryNumbering | src/tenes.cpp:286-290 | for a site tensor `nr` is the generic mixed-radix index: below the volume, and distinct for distinct entries |
| Solver.AllocatedSites | src/tenes.cpp:223 | each site tensor is allocated with its own site shape |
| Solver.SiteAllocation | src/tenes.cpp:223-231 | the nine tensors pushed for site i, in push order: Tn (vdim0..vdim3, pdim), eTt, eTr, eTb, eTl (CHI, CHI, d, d with the leg facing that side), C1..C4 (CHI, CHI) |
| Solver.AllocatedEnv | src/tenes.cpp:224-231 | the environment allocated for every site: CHI x CHI corners, and each edge carrying the dimension of the site's leg on its side (top leg 1, right 2, bottom 3, left 0) |
| Solver.Identities | src/tenes.cpp:239-245 | each site's identity operator is the identity of its physical dimension |
| Checkpoint.InitialLambda | src/tenes.cpp:233-237 | every initial spectrum has length vdim[j] on leg j, and all its entries are 1.0 |
| Solver.InitialSiteLambda | src/tenes.cpp:233-236 | the per-leg loop builds exactly the initial spectra of one site |
| Solver.AllocateSite | src/tenes.cpp:219-245 | one iteration of the allocation loop gives the site's nine tensors, its initial spectra and its identity |
| Solver.AllocateTensors | src/tenes.cpp:207-246 | allocation gives every site its shaped tensors, all-ones spectra and identity operator |
| Solver.TargetOf | src/tenes.cpp:365 | the target of a bond is a site of the unit cell |
| Solver.SimpleBond | src/tenes.cpp:363-373 | one bond writes the kernel's spectrum at the source leg and at the target's opposite leg. The target gets the new target tensor and, when the two differ, the source gets the new source tensor. Every other spectrum and site tensor, and the environment, are unchanged |
| Solver.SimpleKernelAt | src/tenes.cpp:367-369 | `Simple_update_bond` applied to the source and target tensors, both ends' lambdas, the gate and the source leg |
| Solver.SimpleSweep | src/tenes.cpp:362-374 | a sweep over the gates keeps the sizes of the state |
| Solver.SimpleUpdated | src/tenes.cpp:361-374 | nsteps sweeps keep the sizes of the state |
| Solver.SimpleSweepFrame | src/tenes.cpp:362-374 | a sweep never changes the environment, nor the tensor or spectra of a site no gate touches |
| Solver.SimpleUpdatedFrame | src/tenes.cpp:361-374 | the simple update never changes the environment, nor the tensor or spectra of a site no gate touches; with zero steps nothing changes |
| Solver.SimpleBondKeepsShape | src/tenes.cpp:367-371 | if the lattice's bond dimensions agree at both ends and the kernel returns a spectrum as long as the bond, every spectrum keeps its leg's length |
| Solver.SimpleSweepKeepsShape | src/tenes.cpp:361-374 | under the same assumptions, with a kernel that keeps the bond length (`KeepsBondLength`), every spectrum keeps its leg's length through any sequence of gates |
| Solver.SimpleUpdatedKeepsShape | src/tenes.cpp:351-386 | the same through any number of simple-update steps |
| Solver.FullArgs | src/tenes.cpp:409-484 | argument k of the kernel call is the corner or edge the orientation table names, taken from the site of its role |
| Solver.FullKernelAt | src/tenes.cpp:409-484 | `Full_update_bond` applied to the four corners and six edges the orientation table names for the leg, the two site tensors, the gate and the leg |
| Solver.FullRefreshes | src/tenes.cpp:488-506 | the refreshes after one gate: `BondRefreshes` for the gate's axis, source and target |
| Solver.BondKernelCall | src/tenes.cpp:409-484 | the four-case switch calls the kernel with exactly the orientation table's corners and edges |
| Solver.RefreshAfterBond | src/tenes.cpp:488-506 | the refresh after a bond applies exactly the refreshes of `FullRefreshes` to the current environment |
| Solver.FastRefreshLines | src/tenes.cpp:488-506 | with sites numbered row by row, the fast update refreshes the source's column by a left move and then the target's column by a right move (horizontal bond), or the source's row by a top move and then the target's row by a bottom move (vertical bond), each inside the unit cell; without it one full CTM pass runs |
| Solver.FullBond | src/tenes.cpp:404-507 | one bond writes the new target tensor and, when the ends differ, the new source tensor. It leaves every other site tensor and all spectra unchanged. The environment becomes the result of the refresh rule on the new tensors |
| Solver.FullStart | src/tenes.cpp:392-394 | one CTM pass on the current tensors when num_full_step > 0; otherwise the state as it is |
| Solver.FullSweep | src/tenes.cpp:403-507 | the full-update gates applied in order through FullBond, each on the state the previous one left |
| Solver.FullUpdated | src/tenes.cpp:392-507 | the full update keeps the sizes of the state; with zero steps nothing changes, not even the environment |
| Solver.FullBondFrame | src/tenes.cpp:485-486 | a full-update bond leaves the spectra and every site other than its two ends unchanged |
| Solver.FullSweepFrame | src/tenes.cpp:403-507 | a sweep leaves the spectra, and the tensor of every site no gate touches, unchanged |
| Solver.FullUpdatedFrame | src/tenes.cpp:388-519 | the full update never changes a spectrum, nor the tensor of a site no gate touches |
| Solver.TeNeS.constructor | src/tenes.cpp:123-204 | the new solver holds the allocated state. Its group counts are max group + 1 (or 0), and its table gives the last operator per (site, group), or -1; the spectra have the shapes of the bond dimensions |
| Solver.TeNeS.Load | src/tenes.cpp:297-341 | a missing directory fails with the program's message, and a missing tensor file fails too. On success every tensor comes from its file and the spectra come from the lambda files; on failure nothing changes; after a successful load the spectra have the shapes of the bond dimensions |
| Solver.Start | src/tenes.cpp:297-304 | start-up succeeds exactly when no load directory is given or it loads fully; the state is then the allocated one or the loaded one; the spectra have the shapes of the bond dimensions |
| Solver.TeNeS.SimpleGate | src/tenes.cpp:363-373 | updating the fields in place gives the SimpleBond state |
| Solver.TeNeS.SimpleSweepGates | src/tenes.cpp:362-374 | the inner loop over the gates extends the sweep by one full pass |
| Solver.TeNeS.SimpleUpdate | src/tenes.cpp:351-386 | after the loop the state is SimpleUpdated with max(nsteps, 0) sweeps, and the setup fields are unchanged; spectra shaped like the bonds stay so when the kernel keeps the bond length and the bond dimensions agree at both ends |
| Solver.TeNeS.FullGate | src/tenes.cpp:404-507 | the in-place kernel call, tensor writes and refresh give the FullBond state |
| Solver.TeNeS.FullSweepGates | src/tenes.cpp:403-507 | the inner loop over the gates extends the sweep by one full pass |
| Solver.TeNeS.FullUpdate | src/tenes.cpp:388-519 | the state becomes FullUpdated with max(nsteps, 0) sweeps: one CTM pass first when nsteps > 0, then the sweeps |
| OneSite.OnesiteEntry | src/tenes.cpp:547-561 | an entry is undefined exactly when no operator has that group and site; otherwise it is some such operator's value over the site's norm |
| OneSite.SiteEnvOf | src/tenes.cpp:553-554 | the nine tensors of site i that `Contract_one_site` takes: C1..C4, eTt, eTr, eTb, eTl and Tn of that site |
| OneSite.MeasureOnesite | src/tenes.cpp:542-566 | the loops fill an nlops by N_UNIT table whose every entry is OnesiteEntry, a later operator overwriting an earlier one |
| Solver.TeNeS.MeasureOnesite | src/tenes.cpp:542-566 | the solver's one-site table is OnesiteEntry of its own state, identities, operators and group count |
| OneSite.SaveOnesite | src/tenes.cpp:588-601 | the saver writes the lines in (group, site) order, every line is a defined entry, and every defined entry has its line |
| OneSite.SavedExactlyAssigned | src/tenes.cpp:547-601 | a line for (group, site) is saved exactly when some one-site operator has that group and site |
| TwoSite.LayoutMeaning | src/tenes.cpp:628-685 | an operator is skipped iff its block is wider or taller than 4. Otherwise the block is (abs dy + 1) by (abs dx + 1); the source column is 0 iff dx >= 0 and the source row is the last iff dy >= 0; target minus source is dx across and dy up |
| TwoSite.AdjacentBlocks | src/tenes.cpp:714-716 | the adjacent fast path is taken exactly for 2 by 1 and 1 by 2 blocks, that is for nearest neighbours |
| TwoSite.BlockIndices | src/tenes.cpp:687-693 | the index grid has nrow rows of ncol cells each |
| TwoSite.BlockEnvOf | src/tenes.cpp:687-704 | the tensors the block contraction takes: C1 of the top-left cell, C2 top-right, C3 bottom-right, C4 bottom-left, eTt and eTb along the top and bottom rows, eTl and eTr along the left and right columns, and Tn of every cell |
| TwoSite.AdjacentBlockEnv | src/tenes.cpp:714-730 | for a two-cell block those are exactly the twelve tensors the vertical (top, bottom) and horizontal (left, right) pair contractions take |
| TwoSite.IdentityGrid | src/tenes.cpp:691 | the identity operator of the site in every cell of the block |
| TwoSite.BlockNorm | src/tenes.cpp:709 | the real part of the block contracted with the identity everywhere |
| TwoSite.BlockEnds | src/tenes.cpp:687-693 | the source cell holds the source site and the target cell holds the site at (dx, dy) |
| TwoSite.BlockFixedByTopLeft | src/tenes.cpp:687-706 | for a translation-consistent lattice every cell is fixed by the top-left site, which is what makes the cache key sound |
| TwoSite.SameKeySameBlock | src/tenes.cpp:706-711 | two operators with the same cache key read the same block of sites |
| TwoSite.AdjacentOpAgrees | src/tenes.cpp:714-730 | the program's site comparison picks the intended orientation whenever the target is a different site from the source |
| TwoSite.AdjacentOpAsWritten | src/tenes.cpp:719 | the operator as is when the first (top or left) site equals the source site, otherwise transposed |
| TwoSite.AdjacentOp | src/tenes.cpp:714-730 | the operator as is when the source occupies the first (top or left) cell, otherwise transposed |
| TwoSite.SvdSum | src/tenes.cpp:732-744 | the sum over the SVD terms of s_i times the block contracted with A_i at the source cell and B_i at the target cell |
| TwoSite.OpValue | src/tenes.cpp:713-751 | the numerator: the adjacent contraction of the two-cell block for a 2x1 or 1x2 block, the SVD sum for a larger block, or the block contracted with the source's and target's one-site operators when `ops_indices` is given |
| TwoSite.AdjacentOperand | src/tenes.cpp:714-730 | under the site test the adjacent path hands over the operator as the program chooses it, and under the cell test as intended |
| TwoSite.OpValueRuleAgrees | src/tenes.cpp:714-730 | an operator whose adjacent-path ends are distinct sites has the same value under both tests |
| TwoSite.StepRuleAgrees | src/tenes.cpp:616-753 | one operator of the loop has the same effect under both tests when its ends are distinct |
| TwoSite.FoldRuleAgrees | src/tenes.cpp:605-757 | the whole loop gives the same table and cache under the program's site test and the intended cell test when no adjacent-path operator joins a site to itself |
| TwoSite.AdjacentOpAsWrittenSwapsLegs | src/tenes.cpp:715-722 | on a one-site cell with (dx, dy) = (0, 1) the program hands the operator untransposed although the source sits in the bottom cell |
| TwoSite.Step | src/tenes.cpp:616-753 | one operator keeps the group count of the results and updates the cache as StepNorms says |
| TwoSite.KeyOf | src/tenes.cpp:706 | the cache key (top-left site, nrow, ncol) of the operator's block |
| TwoSite.OpNorm | src/tenes.cpp:709 | the norm of the operator's own block |
| TwoSite.NormUsed | src/tenes.cpp:706-711 | the cached norm for the operator's key if there is one, otherwise the norm of its block |
| TwoSite.StepNorms | src/tenes.cpp:706-711 | the cache after one operator: unchanged when it is skipped, otherwise its key maps to the norm it used |
| TwoSite.Fold | src/tenes.cpp:616-753 | the operators processed in order by Step, from empty tables and an empty cache |
| TwoSite.LastMeasured | src/tenes.cpp:752 | -1 exactly when no operator that is measured has that group and bond key; otherwise the last one that has them |
| TwoSite.StepFrame | src/tenes.cpp:752 | an operator leaves every other (group, key) entry of the results unchanged |
| TwoSite.StepWrites | src/tenes.cpp:752 | an operator that is not skipped writes its value over the norm used under Bond(source, dx, dy) of its group |
| TwoSite.LayoutBlockIsKeyBlock | src/tenes.cpp:706 | the block an operator reads is the block its cache key describes |
| TwoSite.KeyBlockIsBlock | src/tenes.cpp:706-711 | the cache key is in range and the operator's norm is the norm of the key's block |
| TwoSite.StepKeepsCacheSound | src/tenes.cpp:706-711 | every cached norm stays the norm of its key's block, no key is dropped, and the norm an operator uses is its own block's norm |
| TwoSite.NormUsedIsOwn | src/tenes.cpp:706-711 | with a sound cache the norm taken (cached or computed) is the operator's own block norm |
| TwoSite.FoldCacheSound | src/tenes.cpp:706-711 | throughout the operator loop the cache holds only true block norms |
| TwoSite.FoldUsesOwnNorm | src/tenes.cpp:706-711 | after any prefix of operators, the next operator divides by the norm of its own block |
| TwoSite.TwositeTable | src/tenes.cpp:616-753 | a result exists for (group, key) iff some operator that is not skipped has them; it is the last such operator's value over its own block norm |
| TwoSite.MeasureTwosite | src/tenes.cpp:605-757 | the loop over the operators gives exactly the results and cache of the fold over them |
| Solver.TeNeS.MeasureTwosite | src/tenes.cpp:605-757 | the solver's two-site results are the fold over its operators in its own state under the program's site test; when no adjacent-path operator joins a site to itself they are also the fold under the intended cell test |
| Correlations.RightOpsOf | src/tenes.cpp:799-802 | the partners of a group are no more than the pairs |
| Correlations.RightOpsMembers | src/tenes.cpp:799-802 | h is a partner of g exactly when (g, h) is a requested pair |
| Correlations.BuildRightOps | src/tenes.cpp:797-802 | the loop gives, for every left group, its partners in the order of the pairs |
| Correlations.WalkDecomposes | src/tenes.cpp:829-833 | the right coordinate lies in the cell, the wrap count is non-negative, and right + length * wraps = left + r + 1 |
| Correlations.RightSite | src/tenes.cpp:834 | the right site is a site of the unit cell |
| Correlations.Rec | src/tenes.cpp:850-852 | a record carries the left site and group, the right site and group, and the wrap count on the walking axis and 0 on the other |
| Correlations.RightCoord | src/tenes.cpp:830-877 | the right site's coordinate (left + r + 1) % length along the walking axis |
| Correlations.Wraps | src/tenes.cpp:832-879 | the offset (left + r + 1) / length along the walking axis |
| Correlations.StartColumn | src/tenes.cpp:822-873 | the left end: C1, C4, eTt, eTb, eTl and Tn for the horizontal walk, or C4, C3, eTl, eTr, eTb and the transposed Tn for the vertical one |
| Correlations.FinishColumn | src/tenes.cpp:835-895 | the right end: C2, C3, eTt, eTr, eTb and Tn for the horizontal walk, or C1, C2, eTl, eTt, eTr and the transposed Tn for the vertical one |
| Correlations.PassOf | src/tenes.cpp:855-903 | one transfer step: eTt, eTb and Tn (horizontal), or eTl, eTr and the transposed Tn (vertical) |
| Correlations.Carried | src/tenes.cpp:822-903 | the tensor carried to distance r: started at the left site with the operator, then transferred through the right sites at distances 0 .. r - 1 |
| Correlations.ROps | src/tenes.cpp:799-802 | the right groups `r_ops[g]` paired with left group g |
| Correlations.Distances | src/tenes.cpp:829 | the distances measured: r_max of them, or none when r_max <= 0 |
| Correlations.DistanceSound | src/tenes.cpp:839-853 | a record at one distance is for a requested, assigned right group |
| Correlations.DistanceComplete | src/tenes.cpp:839-853 | every requested right group assigned at the right site gives its record at that distance |
| Correlations.DirectionSound | src/tenes.cpp:829-859 | a record of one direction has a distance below r_max and a requested, assigned right group |
| Correlations.DirectionComplete | src/tenes.cpp:829-859 | every such distance and right group gives its record in that direction |
| Correlations.SiteOpSound | src/tenes.cpp:809-905 | a record of a left site and group is of one direction, distance and right group that qualify |
| Correlations.SiteOpComplete | src/tenes.cpp:809-905 | every qualifying direction, distance and right group gives its record for the left site and group |
| Correlations.SiteSound | src/tenes.cpp:809-906 | a record of a left site comes from one of its groups |
| Correlations.SiteComplete | src/tenes.cpp:809-906 | every group's records appear among the left site's |
| Correlations.RecordsSound | src/tenes.cpp:805-907 | a record comes from one of the left sites |
| Correlations.RecordsComplete | src/tenes.cpp:805-907 | every left site's records appear among all records |
| Correlations.CorrelationRecords | src/tenes.cpp:805-907 | a record is emitted iff its left group is assigned at the left site, its distance is below r_max, and its right group is paired with the left one and assigned at the right site |
| Correlations.NoDistanceNoRecords | src/tenes.cpp:829 | with r_max <= 0 (the default) no record is emitted |
| Correlations.CloseAtDistance | src/tenes.cpp:835-853 | at one distance the loop over the right groups emits exactly that distance's records |
| Correlations.StepDistance | src/tenes.cpp:829-859 | one distance emits its records and carries both transfer tensors one site further |
| Correlations.MeasureDirection | src/tenes.cpp:829-859 | the loop over the distances emits that direction's records in the order of increasing distance |
| Correlations.MeasureSite | src/tenes.cpp:809-906 | the loop over the left groups emits that site's records, horizontal before vertical for each group |
| Correlations.MeasureCorrelation | src/tenes.cpp:794-911 | the nested loops emit exactly Records, in the order of the loops |
| Correlations.Emit | src/tenes.cpp:805-907 | the records of each stage of the nested loops in loop order: left sites, their groups, horizontal before vertical, distances, then right groups in the order requested, skipping unassigned operators |
| Correlations.DistanceRecords | src/tenes.cpp:839-853 | the records of one distance, one per assigned right group |
| Correlations.DirectionRecords | src/tenes.cpp:829-859 | the records of one direction, distance by distance |
| Correlations.SiteOpRecords | src/tenes.cpp:810-905 | the records of one left site and group: none when it has no partners or is unassigned, else horizontal then vertical |
| Correlations.SiteRecords | src/tenes.cpp:809-906 | the records of one left site, group by group |
| Correlations.Records | src/tenes.cpp:805-907 | the records of every left site, in order |
| Solver.TeNeS.MeasureCorrelation | src/tenes.cpp:794-911 | the solver's correlations are Records in its own state and operator table |
| Checkpoint.NatToString | src/tenes.cpp:1048 | a site number is written as a non-empty string of decimal digits |
| Checkpoint.ParseNatToString | src/tenes.cpp:1048 | reading the decimal digits back gives the number |
| Checkpoint.NatToStringInjective | src/tenes.cpp:1048 | distinct site numbers give distinct strings |
| Checkpoint.KindName | src/tenes.cpp:1049-1057 | every kind name is non-empty and contains no underscore |
| Checkpoint.FileName | src/tenes.cpp:1047-1057 | `<dir>/<Kind>_<i>.dat` |
| Checkpoint.LambdaFileName | src/tenes.cpp:1061 | `<dir>/lambda_<i>.dat` |
| Checkpoint.TensorOf | src/tenes.cpp:1049-1057 | the tensor of each kind kept for site i: Tn, eTt, eTr, eTb, eTl, C1..C4 |
| Checkpoint.KindNameInjective | src/tenes.cpp:1049-1057 | distinct kinds have distinct names |
| Checkpoint.FileNamesDistinct | src/tenes.cpp:1047-1061 | `dir/<Kind>_<i>.dat` names the kind and site uniquely and never coincides with a lambda file |
| Checkpoint.TensorFileNamesDistinct | src/tenes.cpp:1047-1057 | different (kind, site) pairs get different files |
| Checkpoint.LambdaFileNamesDistinct | src/tenes.cpp:1061 | different sites get different lambda files |
| Checkpoint.Position | src/tenes.cpp:1049-1057 | every kind has its place in the fixed save order T, Et, Er, Eb, El, C1..C4 |
| Checkpoint.SavedLambda | src/tenes.cpp:1060-1068 | one text file per site |
| Checkpoint.WrittenText | src/tenes.cpp:1064 | the text holds as many values as were written, each as the output formatting renders it |
| Checkpoint.SaveSiteLambda | src/tenes.cpp:1062-1066 | the legs-then-entries loops write one site's spectra, flattened in order |
| Checkpoint.SaveLambda | src/tenes.cpp:1060-1068 | the loops write each site's spectra flattened in (leg, entry) order |
| Checkpoint.LoadedLambda | src/tenes.cpp:316-340 | the loaded spectra of site i are read from its file at the running offset of each leg |
| Checkpoint.LoadedAt | src/tenes.cpp:316-340 | loaded entry (i, j, k) is value number (vdim0 + .. + vdim(j-1)) + k of file i |
| Checkpoint.LambdaRoundTrip | src/tenes.cpp:316-340 | loading what was saved gives spectra of the same shape whose every entry is the written value of the original entry |
| Checkpoint.RoundTripEntry | src/tenes.cpp:316-340 | each entry after save and load is the written form of the original entry |
| Checkpoint.EntryShape | src/tenes.cpp:331-340 | the loaded spectra have the shapes of the lattice's bond dimensions, whatever the files hold |
| Checkpoint.LambdaRoundTripExact | src/tenes.cpp:316-340 | when the output is exact, load after save is the identity |
| Checkpoint.MissingLambdaFile | src/tenes.cpp:323-324 | a missing or empty lambda file loads as spectra of zeros |
| Checkpoint.ReadParts | src/tenes.cpp:316-329 | the reader takes the first sum-of-vdim values of each file |
| Checkpoint.ReadLambdaFiles | src/tenes.cpp:316-329 | the reading loops give the concatenation of those per-file values |
| Checkpoint.ReadSiteFile | src/tenes.cpp:320-327 | one file is read leg by leg, sum-of-vdim values in all |
| Checkpoint.ReadLeg | src/tenes.cpp:322-326 | one leg reads vdim[j] values and advances the stream position by as many |
| Checkpoint.ReadAt | src/tenes.cpp:323-324 | the p-th read of a file: its p-th value, or 0.0 past its end |
| Checkpoint.LegValues | src/tenes.cpp:322-326 | n consecutive reads from a position |
| Checkpoint.SiteValues | src/tenes.cpp:321-327 | one file read leg after leg, vdim[j] values for leg j |
| Checkpoint.DistributeLambda | src/tenes.cpp:331-340 | the running-index loop puts each site's part of the flat list back into its spectra |
| Checkpoint.DistributeSite | src/tenes.cpp:334-339 | one site takes its values leg by leg, and the index advances by the site's length |
| Checkpoint.DistributeLeg | src/tenes.cpp:335-338 | one leg takes vdim[j] consecutive values and the index advances by vdim[j] |
| Checkpoint.LoadLambda | src/tenes.cpp:316-340 | reading and distributing give exactly LoadedLambda |
| Checkpoint.SaveSiteTensors | src/tenes.cpp:1047-1057 | the nine files of a site hold its nine tensors and no other file changes |
| Checkpoint.SaveAllTensors | src/tenes.cpp:1046-1058 | every site's nine files hold its tensors and only those files change |
| Checkpoint.SaveLambdaTexts | src/tenes.cpp:1060-1068 | every site's lambda file holds its text and only those files change |
| Checkpoint.SaveTensors | src/tenes.cpp:1035-1069 | with no directory nothing is written. Otherwise the directory exists afterwards, every tensor and lambda file holds its data, and no other file changes |
| Solver.TeNeS.Save | src/tenes.cpp:1035-1069 | the solver saves exactly its own tensors and spectra as SaveTensors describes |
| Checkpoint.FileColumn | src/tenes.cpp:303-315 | the loaded tensors of one kind are the files of that kind, site by site |
| Checkpoint.FileSites | src/tenes.cpp:306 | one site tensor per site |
| Checkpoint.FileTensor | src/tenes.cpp:306-314 | the tensor a load finds in the file of a kind at site i |
| Checkpoint.FileEnv | src/tenes.cpp:307-314 | the loaded environment has one of each corner and edge per site |
| Checkpoint.LambdaTexts | src/tenes.cpp:320 | one lambda text per site |
| Checkpoint.LoadSiteTensors | src/tenes.cpp:303-315 | a site loads iff its nine files exist; on success it gets their contents, and on failure the message names a missing file |
| Checkpoint.LoadNextSite | src/tenes.cpp:303-315 | loading one more site extends the loaded environment and tensors by that site's files |
| Checkpoint.LoadAllTensors | src/tenes.cpp:303-315 | the tensors load iff every file exists, and they are then the files' contents |
| Checkpoint.LoadTensors | src/tenes.cpp:297-341 | a missing directory fails with "<dir> does not exists.". Otherwise loading succeeds iff every tensor file exists, and it gives the files' tensors and the spectra read from the lambda files |
| Checkpoint.CheckpointRoundTrip | src/tenes.cpp:1046-1068 | after a save, every tensor file exists and loading gives back the saved environment, the saved tensors and the saved lambda texts |

## Left out

- Floating point: values are `real`. The program divides by norms (`val / norm[i]`, `value / norm`); the model keeps the value and the norm as an `Observed` pair instead, so NaN and division are not modelled. The undefined one-site entry (the program's NaN) is `OneSite.Option.None`.
- Numerical routines are parameters of the model, so nothing is proved about their results:
  - `Simple_update_bond`, `Full_update_bond`, `Calc_CTM_Environment` and the four moves;
  - the contractions, `StartCorrelation`, `FinishCorrelation` and `Transfer`;
  - the SVD, `transpose` and the mptensor file format.
- MPI: ranks, `Bcast`/`bcast`, and the rank-0-only branches are left out. The model is one process doing all the work.
- The random initial tensor entries (the `mt19937` generators, the initial directions and the noise) are left out. The model proves the shapes and the `nr` numbering of those entries, but not their values.
- The parameter file, the output directory creation in the constructor, and the `optimize`/`measure` drivers with their energy and density sums are left out. So are `save_twosite`, `save_correlation`, the timers, the progress reports and every log line. All of this is output formatting or floating-point summation.
- Text output of the lambda files: the conversion to six significant digits is the parameter `written`, so the round trip is exact only when `written` is the identity (`Checkpoint.LambdaRoundTripExact`).
- Directories are a set, and files are two maps from names to tensors and to value lists (`Checkpoint.Disk`). `stat` and `mkdir` are membership in and insertion into that set.
- Solver.TeNeS.Load: a missing tensor file is modelled as a `Failure` naming that file. The tensor library's own error for that case is not part of this model.
- Checkpoint.LoadedLambda: a value that fails to read leaves 0.0, and the model takes that for every value past the end of a file. Any other malformed text is not modelled.
- The lattice helpers `neighbor`, `other`, `index`, `x` and `y` are function-valued fields of `Lattices.Lattice`, because `Lattice.hpp` is not part of this model. `Lattices.Valid` states only that their results are sites. `Lattices.RowMajor` states the row-by-row numbering (`x = s % LX`, `y = s / LX`, `N_UNIT = LX * LY`); it is assumed only where a member requires it.
- `NNOperator::is_horizontal()` is not part of this model. It is taken to mean source leg 0 or 2 (left or right), which matches the leg order the orientation switch uses.
- Solver.TeNeS.FullUpdate, Solver.FullBond: the `default:` branch of the orientation switch is left out. The model requires every gate's leg to be in 0..3, which the lattice always guarantees.
- Solver.TeNeS.FullUpdate, Solver.FullUpdated: it is assumed that the CTM pass and the moves return an environment for as many sites (`Solver.KeepsSize`).
- Solver.SimpleBondKeepsShape, Solver.SimpleSweepKeepsShape, Solver.SimpleUpdatedKeepsShape, Solver.TeNeS.SimpleUpdate: the spectra keep their shapes only under two assumptions. First, the lattice's bond dimensions agree at both ends of each bond (`Solver.BondDimsAgree`). Second, the simple-update kernel returns a spectrum as long as the one it was given (`Solver.KeepsBondLength`). The kernel is not part of this model.
- Solver.TeNeS.Save: the spectra must have exactly the bond dimensions' lengths (`Checkpoint.LambdaShaped`). The construction, a successful load and, under the assumptions above, the simple update keep this, and the full update leaves the spectra alone (`Solver.FullUpdatedFrame`). The program writes exactly the first vdim[j] entries of each leg (src/tenes.cpp:1063), so it cuts a longer spectrum short and reads past the end of a shorter one; spectra of other lengths are not modelled.
- TwoSite.MeasureTwosite, Solver.TeNeS.MeasureTwosite: the result is stated against the program's site test (`TwoSite.SiteTest`). It is related to the intended cell test only when every adjacent-path operator joins two different sites and `other` does not move a site for (0, 0) (`TwoSite.AdjacentEndsDistinct`, `TwoSite.FoldRuleAgrees`). Otherwise the two tests can differ (Findings).
- Correlations.BuildRightOps, Solver.TeNeS.MeasureCorrelation: every pair of the correlation parameter must name existing one-site groups (`Correlations.PairsFit`). The program indexes `r_ops` with the left group unchecked (src/tenes.cpp:801) and looks up the right group unchecked (src/tenes.cpp:840, 887); a pair outside the groups is not modelled.
- TwoSite.TwositeTable, TwoSite.FoldUsesOwnNorm, TwoSite.FoldCacheSound: the norm cache is proved sound only when `other` is translation consistent (`TwoSite.TranslationConsistent`). The program keys the cache by the top-left site alone and relies on this property of `Lattice.hpp`.
- TwoSite.MeasureTwosite: an operator given as a product of one-site operators (`ops_indices`) must name groups assigned at both ends. The program does not check this, and indexes the operator list with -1 otherwise.
- Operators.CountGroups, Operators.BuildSiteOpsIndices: one-site operators must have a group >= 0 and a site in the unit cell. The program indexes the table with them unchecked.
- Solver.TeNeS.constructor: the model builds the operator table before loading the checkpoint, while the program loads first. The two touch disjoint fields, so the result is the same.

## Findings

| source | as written | input that shows it | evidently intended | confidence | as-written member | corrected member |
|---|---|---|---|---|---|---|
| src/tenes.cpp:714-730 | the adjacent fast path transposes the operator unless the first (top or left) site of the pair *is the source site*, comparing site numbers | a unit cell one site wide along the bond, e.g. a one-site cell with (dx, dy) = (0, 1): the top and bottom cells are both site 0, so the operator is passed untransposed although the source sits in the bottom cell | transpose unless the source occupies the first *cell* of the block | not executed; medium | TwoSite.AdjacentOpAsWrittenSwapsLegs | TwoSite.AdjacentOpAgrees |

The measurement takes the test as a field of its context (`TwoSite.AdjacentRule`).
The solver uses the program's site test. The corrected cell test,
`TwoSite.AdjacentOp`, agrees with it whenever the target is a different site
from the source: per operator (`TwoSite.AdjacentOpAgrees`) and for the whole
measurement loop (`TwoSite.FoldRuleAgrees`, and the last ensures of
`Solver.TeNeS.MeasureTwosite`).
