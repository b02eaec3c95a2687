# Tile kernels and layouts for the Ascend NPU: a Dafny model

This project models the hardest parts of a tile-kernel DSL for the Ascend NPU and proves what they are for:
hand-synchronised pipelines, the layout algebra of the compiler, and fast kernels that must agree with a simple
definition. `dafny verify dfyconfig.toml` checks everything.

Shared ground: `Arith` (division by a symbolic divisor), `Sums` (finite sums of reals, the law of exp), `Slopes` and
`Elementary` (derivatives by their definition), `Boxes` (mixed-radix flattening), `Results` (the outcome of
ICHECK-guarded code).

**Pipelines.** Each core or pipe is a process with a program counter, each flag a counter, and a step relation lets
any enabled process move, so the results hold in every interleaving.

- Sparse attention, high-performance version (`SparseProtocol`, `SparseJob`, `SparseAttention`, `SparseInvariant`,
  `SparseBuffers`, `SparseRuns`, `SparseProblem`, `SparseGrid`): one Cube core and two Vector sub-cores over four
  two-slot workspaces without "slot is free" flags, carrying an online softmax with a sink; many of them on one output.
- Vector addition (`PipeProtocol`, `VecAdd`, `VecAddLaunch`, `VecAddProgram`): three pipes, three A slots, two B slots.
- Lighting indexer (`CreditWindow`): a producer at most 15 stores ahead of its consumers.
- Flash attention (`FlashProtocol`, and `FlashRun` with the numbers): one flag id used for two different messages.

**Layout algebra.** `Fragments` (Repeat, Replicate, DeReplicate), `GemmFragments` and `GemmBuilders` (the matrix
fragments), `GemmPlaces` (which thread and register each element gets), `IterSplits`, `ThreadIndex` and
`CondenseReplica` (digits of iterators), `GemmLayouts`, `BankSwizzle`, `VoltaLayouts` and `Swizzle` (shared-memory
layouts), `LayoutPlaces` (which address each element gets), `BulkCopy` (bulk copies of laid-out tiles).

**Kernels against definitions.** `FlashAttention` and `FlashLaunch`, `CorrectH0` and `CorrectLaunch`, `Indexer`. The
engram layer: `Engram` (decoding and the forward pass), `EngramBackward` and `EngramPasses` (the three backward passes
as launched), `EngramTangent` (the derivative of the forward pass along a direction), `EngramGradient` (the same,
transposed), `EngramDerivative` and `EngramTraining` (both put together).

Apart from finite sums a definition never uses the functions that the kernel beside it is built from, so that a wrong
kernel body has nothing to agree with.

## Assumptions

- Arithmetic is exact (`real`); exp is any function E that is positive and satisfies E(x + y) = E(x) E(y); sigmoid,
  rsqrt and sqrt are arbitrary functions. The derivative of the engram layer needs sigmoid and rsqrt to have theirs,
  which `EngramDerivative.AlwaysDifferentiable` derives from what they are: 1 / (1 + exp(-x)) and 1 / sqrt(x).
- Each core executes its own program in order. A flag from Vector to Cube counts as raised once both sub-cores have
  set it (mode INTRA_BLOCK, src/op/ascend.h:214-218); a flag from Cube to Vector is raised for both sub-cores.
- A copy is one step of its core. `SparseProtocol.NoConflict` and `PipeProtocol.SlotsNotShared` show that no other
  core or pipe touches the slot meanwhile, so a finer grain would change nothing.
- The sparse attention block size is even and top_k at least 1, as the halving of blocks over sub-cores presumes.
- Memory is uninitialised at launch: workspaces, buffers and index tails start with arbitrary contents.
- Index buffers hold -1 (masked) or anything else; an index outside the key range gathers a zero row, as the code does.
- Iterator sums are given in normalised form, as lists of digits with constant factors.
- A fragment's thread and register extents, which the compiler gets by interval analysis, are fields taken to be exact;
  that every thread and register below them is reached, and none above, is part of the correspondence proved.
- The sequence map of the state correction does not decrease.

## What the proofs found

- Sparse attention with an odd number of heads never writes the last head (`SparseRuns.OddHeadUnwritten`).
- Flash attention is exact if and only if the key block divides the sequence length, or the weighted sum is zero: the
  columns that a short last block leaves from before are counted in the denominator (`FlashAttention.FlashRow`,
  `FlashRun.RunComputesAttention`).
- State correction of an empty sequence writes the initial state over a chunk of another sequence
  (`CorrectLaunch.EmptyDoesHarm`). The launch is right in every program order if and only if no such write changes a
  state, and so for all data if and only if each falls on a sequence of one chunk and states start from zero, or on none
  (`CorrectLaunch.OrdersDecide`, `CorrectLaunch.MapDecides`). An empty first sequence, or in reverse an empty last one,
  writes outside the output (`CorrectLaunch.BoundsDecide`).
- The Hopper accumulator covers its block if and only if the warp width is a multiple of 8 and divides the block
  width, the 8-bit A operand if and only if block_k is a multiple of 32, and the B operand if and only if the warp width
  divides the block width; none of this is checked (`GemmBuilders.FragmentCHopperHolds`,
  `GemmBuilders.FragmentAHolds`, `GemmBuilders.FragmentBHolds`).
- The tail split of get_unused_iters rounds down: the decomposition spans the iterator if and only if every used digit
  ends at a divisor of its extent. Otherwise either a digit ends above the extent and the index has a digit of extent 0,
  or two values of an input share thread and register (`IterSplits.GetUnusedIters`, `ThreadIndex.InferFragmentIndex`).
- Condensing a replica variable can add threads (`CondenseReplica.OverlapAddsThread`); for a positional thread
  expression it adds none if and only if the variable's digits spell every combination
  (`CondenseReplica.CondenseKeepsThreads`).
- A bulk copy of a tile without layout, wider than 256 elements and with more than one row, addresses ranges that do not
  hold the columns it moves (`BulkCopy.LinearCopyLands`); so does one of a padded tile with more than one row, as soon
  as there is padding (`BulkCopy.PaddedCopyLands`).

## Model

| member | source | states |
|---|---|---|
| SparseProtocol.StepInv | examples/deepseek_v4/example_sparse_attn_kernel_highperf.py:553-683 | every action of any core keeps the protocol invariant: counters in order, flags equal to sets minus waits |
| SparseProtocol.WindowOfTwo | examples/deepseek_v4/example_sparse_attn_kernel_highperf.py:553-564 | each of the four channels has at most two tasks outstanding, with two slots and no free flags |
| SparseProtocol.FlagsAreBits | examples/deepseek_v4/example_sparse_attn_kernel_highperf.py:48-58 | every flag is 0 or 1 in every reachable state |
| SparseProtocol.NoConflict | examples/deepseek_v4/example_sparse_attn_kernel_highperf.py:79-173 | while a slot is read, the only task that can be storing on that channel is the next one, in the other slot |
| SparseProtocol.SlotIsFree | examples/deepseek_v4/example_sparse_attn_kernel_highperf.py:219-246 | a core starts storing task k only when everyone has read task k - 2 |
| SparseProtocol.SlotIsFull | examples/deepseek_v4/example_sparse_attn_kernel_highperf.py:249-270 | a core loads task t only when it has been stored by everyone who stores it |
| SparseProtocol.NoDeadlock | examples/deepseek_v4/example_sparse_attn_kernel_highperf.py:618-683 | until all loops have ended some core can move |
| SparseJob.ProbSumIsDen | examples/deepseek_v4/example_sparse_attn_kernel_highperf.py:404-413 | the row sum of masked exponentials, brought back to reference point 0, is the block's true denominator, stale columns or not |
| SparseJob.ContributionIsNum | examples/deepseek_v4/example_sparse_attn_kernel_highperf.py:146-161 | the P.V product over the padded block is the true numerator of the live rows |
| SparseJob.Normalize | examples/deepseek_v4/example_sparse_attn_kernel_highperf.py:487-497 | dividing the accumulators after adding the sink term gives numerator / (denominator + exp(sink)) |
| SparseBuffers.RunningMax | examples/deepseek_v4/example_sparse_attn_kernel_highperf.py:302-330 | the new maximum is the largest of the old one and the block's scaled scores, so no exponent is positive |
| SparseBuffers.NewLogOk | examples/deepseek_v4/example_sparse_attn_kernel_highperf.py:445-486 | rescaling and adding one block keeps the accumulator standing for the denominator so far |
| SparseRuns.CubeStepKeeps | examples/deepseek_v4/example_sparse_attn_kernel_highperf.py:79-173 | every Cube action keeps what all buffers and workspace slots hold |
| SparseRuns.VecStepKeeps | examples/deepseek_v4/example_sparse_attn_kernel_highperf.py:176-521 | every Vector action does, with V1P one task ahead of V2P through the two-slot scale, sum and sink buffers |
| SparseRuns.RunInv | examples/deepseek_v4/example_sparse_attn_kernel_highperf.py:553-683 | the data invariant holds after every interleaving, and the run can go on unless finished |
| SparseRuns.RunsEnd | examples/deepseek_v4/example_sparse_attn_kernel_highperf.py:553-683 | no run is longer than a bound linear in the number of tasks |
| SparseRuns.FinishedRun | examples/deepseek_v4/example_sparse_attn_kernel_highperf.py:500-521 | at the end all flags are down and every row of a finished query is written once with its result |
| SparseRuns.OddHeadUnwritten | examples/deepseek_v4/example_sparse_attn_kernel_highperf.py:500-521 | rows of heads from 2 * (heads / 2) on are never written |
| SparseProblem.ResultIsAttention | examples/deepseek_v4/example_sparse_attn_kernel_highperf.py:273-367 | the block-wise result of a query's last task is softmax with sink over all selected keys, with scores Q . KV[Idx] * sm_scale on the tensors themselves |
| SparseProblem.TaskOwner | examples/deepseek_v4/example_sparse_attn_kernel_highperf.py:79-92 | a core has a task for a query, and that query lies in the batch, if and only if it is one of the queries the core owns |
| SparseProblem.LaunchComputesAttention | examples/deepseek_v4/example_sparse_attn_kernel_highperf.py:525-683 | after every finished run of one AI core, for every row index at all: written once, with sum valid e^s kv / (sum valid e^s + e^sink), if the core owns the query and the head is below 2 * (heads / 2); never written and unchanged otherwise; the formula is stated on Q, KV, Idx, sm_scale and sink alone; from any initial memory, for every top_k tail and interleaving |
| SparseGrid.PartIsRun | examples/deepseek_v4/example_sparse_attn_kernel_highperf.py:535-564 | what one AI core does in an interleaved run of all of them is a run of that core on its own |
| SparseGrid.RunMirrors | examples/deepseek_v4/example_sparse_attn_kernel_highperf.py:500-521 | a row of the shared output always holds what the one core that owns it has written, or else what it held at launch |
| SparseGrid.GridComputesAttention | examples/deepseek_v4/example_sparse_attn_kernel_highperf.py:525-683 | after every finished run of the whole grid on one shared output, in every interleaving of all cores, every row of every query of the batch and head below 2 * (heads / 2) holds the attention formula on the tensors, written once by one core, and every other row is unchanged |
| SparseGrid.GridGoesOn | examples/deepseek_v4/example_sparse_attn_kernel_highperf.py:553-683 | in every reachable state of the grid an AI core that has not finished can act, and none acts more than 28 n + 48 times |
| PipeProtocol.StepInv | examples/elementwise/vec_add_2d_multi_buffer.py:75-156 | every action of any pipe keeps flags equal to sets minus waits, in order |
| PipeProtocol.Windows | examples/elementwise/vec_add_2d_multi_buffer.py:88-156 | stored <= computed <= loaded, at most 3 tasks between load and store, at most 2 between load and compute |
| PipeProtocol.FlagsAreBits | examples/elementwise/vec_add_2d_multi_buffer.py:44-58 | every event flag is 0 or 1 |
| PipeProtocol.SlotsNotShared | examples/elementwise/vec_add_2d_multi_buffer.py:88-131 | no A or B slot is written while a pending compute or store needs it |
| PipeProtocol.NoDeadlock | examples/elementwise/vec_add_2d_multi_buffer.py:164-181 | some pipe can move until all have ended |
| PipeProtocol.DrainedAtEnd | examples/elementwise/vec_add_2d_multi_buffer.py:61-72 | at the end every flag is 0 |
| VecAdd.RunInv | examples/elementwise/vec_add_2d_multi_buffer.py:164-181 | in every interleaving of all kernels' pipes slots and output hold what they should, and an unfinished kernel can act |
| VecAdd.RunsEnd | examples/elementwise/vec_add_2d_multi_buffer.py:173-181 | a kernel with n tasks acts at most 12 n + 12 times |
| VecAddLaunch.TaskOfTile | examples/elementwise/vec_add_2d_multi_buffer.py:82-86 | (ph_id, task_id) and tile number determine each other |
| VecAddLaunch.LaunchAdds | examples/elementwise/vec_add_2d_multi_buffer.py:31-41 | every complete run leaves A + B in the first M - M % block_M rows and N - N % block_N columns, nothing changed elsewhere; everywhere when the blocks divide M and N |
| VecAddProgram.Program | examples/elementwise/vec_add_2d_multi_buffer.py:44-181 | executing the kernel text (init_flag, the software-pipelined loop with load, compute and store of each iteration, clear_flag) instruction by instruction in its order is a legal run: no wait blocks, each instruction finds its pipe standing at it, and the kernel ends |
| CreditWindow.Bounds | examples/deepseek_v32/fp8_lighting_indexer.py:90-96 | at most 15 data sets outstanding and at most one unconsumed credit |
| CreditWindow.StepInv | examples/deepseek_v32/fp8_lighting_indexer.py:81-152 | every action keeps counters, workspace contents and what the sub-cores have read |
| CreditWindow.NoDeadlock | examples/deepseek_v32/fp8_lighting_indexer.py:92-152 | some core can move until all have ended |
| CreditWindow.GuardIsPrefix | examples/deepseek_v32/fp8_lighting_indexer.py:55-57 | the guard is false only for a tail of the loop, so the iteration number counts the sets |
| CreditWindow.RegionsDisjoint | examples/deepseek_v32/fp8_lighting_indexer.py:82-89 | the H x BLOCK_SIZE_N rectangles that different iterations store have no cell in common |
| CreditWindow.RunsEnd | examples/deepseek_v32/fp8_lighting_indexer.py:55-152 | no run is longer than the actions left, 9 for each iteration |
| CreditWindow.LaunchDelivers | examples/deepseek_v32/fp8_lighting_indexer.py:55-152 | after every finished run each sub-core has read, for every iteration, every cell the Cube stored for it, the workspace holds cell (x, y) of batch bi and logical kernel cid at row (bi * M + mi) * H + x and column offset_n + y, and both flags are 0 |
| FlashProtocol.StepInv | examples/flash_attention/flash_attn_npuir.py:81-261 | every action keeps flag counts and the contents of the three workspaces |
| FlashProtocol.FlagsAreBits | examples/flash_attention/flash_attn_npuir.py:115-161 | every flag is 0 or 1 although the Cube sets each id twice |
| FlashProtocol.WaitMatchesSet | examples/flash_attention/flash_attn_npuir.py:192-249 | a sub-core's first wait on an id passes exactly when the scores are set, its second exactly when the product is |
| FlashProtocol.NoDeadlock | examples/flash_attention/flash_attn_npuir.py:81-261 | some core can move until all have ended |
| FlashProtocol.RunsEnd | examples/flash_attention/flash_attn_npuir.py:81-268 | every run of n key blocks has at most 18 n + 2 steps |
| FlashProtocol.FinishedRun | examples/flash_attention/flash_attn_npuir.py:81-268 | at the end each sub-core has written the function of all scores and of every block's product, made from both halves of the probabilities of the scores of blocks 0 .. i, and all flags are down |
| Fragments.RepeatsIndex | src/layout/layout.cc:139-153 | the accumulation loop computes the mixed-radix number of the block, either dimension first |
| Fragments.RepeatBijective | src/layout/layout.cc:127-171 | Repeat on thread or index, in either dimension order, keeps (element, replica) and (thread, register) in one-to-one correspondence with the thread telling the replica |
| Fragments.ReplicateBijective | src/layout/layout.cc:173-183 | so does Replicate |
| Fragments.GcdLaw | src/layout/layout.cc:193-193 | the factor is the greatest common divisor |
| Fragments.DeReplicateBijective | src/layout/layout.cc:185-205 | DeReplicate keeps the correspondence, divides replicas and registers by their gcd and moves no element to a thread that did not hold it |
| GemmFragments.Build | src/layout/layout.cc:127-205 | every fragment built from a base tile by any sequence of Repeat, Replicate and DeReplicate is such a correspondence |
| GemmFragments.BasesBijective | src/layout/gemm_layouts.cc:24-80 | the base tiles are |
| GemmFragments.BaseHalf | src/layout/gemm_layouts.cc:240-252 | the 32 x 32 tile for 16-bit elements is |
| GemmFragments.BaseSingle | src/layout/gemm_layouts.cc:253-261 | the 32 x 32 tile for 32-bit elements is |
| GemmFragments.Base32x4Volta | src/layout/gemm_layouts.cc:286-293 | the replicated Volta A tile is |
| GemmBuilders.FragmentCF64Holds | src/layout/gemm_layouts.cc:82-94 | the fragment holds the whole block, each element once, on 32 threads a warp |
| GemmPlaces.FragmentCF64Places | src/layout/gemm_layouts.cc:82-94 | thread and register of every element, digit by digit: warp row and column, row and column pair of the 8 x 8 tile |
| GemmBuilders.FragmentCHolds | src/layout/gemm_layouts.cc:96-111 | succeeds exactly under its divisibility checks, and then the same |
| GemmPlaces.FragmentCPlaces | src/layout/gemm_layouts.cc:96-111 | the element in row 16 (a bm/wm + w) + 8 h + s and column 8 (b bn/wn + u) + t lies with lane 4 s + t/2 of warp w + bm/wm u, in register t%2 + 2 h + 4 (a + wm/16 b) |
| GemmBuilders.FragmentCCDNAHolds | src/layout/gemm_layouts.cc:113-128 | the same on 64 threads a warp |
| GemmPlaces.FragmentCCDNAPlaces | src/layout/gemm_layouts.cc:113-128 | the same in closed form with 64 lanes |
| GemmBuilders.FragmentCHopperHolds | src/layout/gemm_layouts.cc:130-141 | a correspondence on the columns it covers; it covers the block if and only if 8 divides warp_n and warp_n divides block_n |
| GemmPlaces.FragmentCHopperPlaces | src/layout/gemm_layouts.cc:130-141 | the same in closed form for warp groups of 64 rows |
| GemmBuilders.FragmentAHolds | src/layout/gemm_layouts.cc:143-184 | succeeds exactly under its checks; holds the block, block_n / warp_n times; for 8 bits the columns up to the last multiple of 32, so the block if and only if 32 divides block_k, and it is a correspondence if and only if block_k is at least 32 |
| GemmPlaces.FragmentAPlaces | src/layout/gemm_layouts.cc:143-184 | thread and register of every element and replica in closed form, for 8-, 16-, 32- and 64-bit elements |
| GemmBuilders.FragmentBHolds | src/layout/gemm_layouts.cc:186-208 | succeeds exactly under its checks; holds the whole warps, block_m / warp_m times, so the block if and only if warp_n divides block_n, and it is a correspondence if and only if block_n is at least warp_n |
| GemmPlaces.FragmentBPlaces | src/layout/gemm_layouts.cc:186-208 | the same for the B operand |
| GemmBuilders.FragmentACDNAHolds | src/layout/gemm_layouts.cc:210-238 | succeeds exactly under its checks; holds the block, block_n / warp_n times |
| GemmPlaces.FragmentACDNAPlaces | src/layout/gemm_layouts.cc:210-238 | the same with 64 lanes |
| GemmBuilders.VoltaFragmentCHolds | src/layout/gemm_layouts.cc:263-276 | holds the whole block, each element once |
| GemmPlaces.VoltaFragmentCPlaces | src/layout/gemm_layouts.cc:240-276 | thread and register from the binary digits of row and column, for 16- and 32-bit accumulators |
| GemmBuilders.VoltaFragmentAHolds | src/layout/gemm_layouts.cc:278-299 | holds the block, twice for each warp column |
| GemmPlaces.VoltaFragmentAPlaces | src/layout/gemm_layouts.cc:278-299 | the same for both replicas of every warp column |
| IterSplits.Scan | src/layout/utils.cc:80-97 | finds the unused digit at the expected factor, or else the lowest unused one, which divides the others; the check that there is one never fails |
| IterSplits.GetUnusedIters | src/layout/utils.cc:73-117 | terminates; succeeds if and only if no two digits overlap and digits of extent 1 precede the others at their factor; used and unused digits form a mixed-radix system inside the extent, spanning it if and only if every used digit ends at a divisor of the extent; a digit of extent 0 is emitted if and only if some used digit ends above the extent |
| IterSplits.DigitsTell | src/layout/utils.cc:109-116 | the digits of such a system tell the value |
| ThreadIndex.DivideUnusedIterators | src/layout/utils.cc:119-153 | succeeds if and only if the digits of each variable do; the result holds, variable by variable, exactly the unused digits that complete its mixed-radix system |
| ThreadIndex.MakeFlattenedExpression | src/layout/utils.cc:155-165 | the splits in reverse with strides that are the products of the extents listed before |
| ThreadIndex.CompactPositional | src/layout/utils.cc:155-165 | such a sum is positional: it takes the values 0 .. product - 1 and tells each digit |
| ThreadIndex.TellsVar | src/layout/utils.cc:119-153 | thread and unused digits tell a variable whose digits end at divisors of its extent |
| ThreadIndex.Confuses | src/layout/utils.cc:109-116 | when the emitted digits are proper and a digit of an input does not end at a divisor of its extent, two values of that input, all others equal, share thread and index, for every thread expression |
| ThreadIndex.InferFragmentIndex | src/layout/layout.cc:241-256 | the index has a digit of extent 0 if and only if a digit of an input other than the replica ends above its extent; otherwise, if such a digit does not end at a divisor, two values share thread and index, and for a positional thread expression thread and index tell every input but the replica if and only if all digits end at divisors |
| CondenseReplica.CompressIterator | src/layout/utils.cc:199-243 | the digits of the variable are packed next to each other; the new extent is the product of theirs |
| CondenseReplica.SpellAll | src/layout/utils.cc:218-234 | digits that do not overlap and fit the extent reach every combination |
| CondenseReplica.ApartSpellsAll | src/layout/utils.cc:218-234 | in particular the digits of a replica variable that do not overlap and fit spell every combination |
| CondenseReplica.NoneAdded | src/layout/layout.cc:361-372 | for a positional thread expression, if one element gains no thread, every combination of the replica's digits was spelt before |
| CondenseReplica.CondenseKeepsThreads | src/layout/layout.cc:361-372 | no element leaves a thread; if the replica's digits spell every combination the set of threads of every element is the same, and for a positional thread expression only then |
| CondenseReplica.OverlapAddsThread | src/layout/utils.cc:218-234 | an input with overlapping digits on which a new thread appears |
| GemmLayouts.XorDouble | src/layout/gemm_layouts.cc:301-319 | the arithmetic exclusive or stays in range and undoes itself, from 2 to 4 to 8 |
| GemmLayouts.ABLayoutInjective | src/layout/gemm_layouts.cc:537-556 | whatever branch is taken no two elements share an address; it fails only on a swizzled branch with stride not a multiple of 8 |
| LayoutPlaces.ABLayoutPlaces | src/layout/gemm_layouts.cc:537-556 | which layout each operand gets, and with it the address of every element: pattern (2, 2, 2), (2, 0, 4), (3, log2 v, 3) or (2, log2 v, 3) of its row-major offset, or the padded row-major offset, each under its condition on stride, continuity, element size and k factor |
| GemmLayouts.TileInjective | src/layout/gemm_layouts.cc:321-355 | the full- and half-bank layouts are injective |
| GemmLayouts.KinnerInjective | src/layout/gemm_layouts.cc:382-393 | the double-precision K-inner layout is injective |
| GemmLayouts.KouterInjective | src/layout/gemm_layouts.cc:395-406 | so is K-outer |
| GemmLayouts.PaddedInjective | src/layout/gemm_layouts.cc:415-423 | so is the padded layout |
| VoltaLayouts.CrosswisePermutes | src/layout/gemm_layouts.cc:425-444 | the crosswise layout maps the tile one to one onto 0 .. stride * continuous - 1 |
| LayoutPlaces.CrosswisePlaces | src/layout/gemm_layouts.cc:425-444 | the address of every element of the crosswise layout from the digits of its row and column |
| VoltaLayouts.CongruousPermutes | src/layout/gemm_layouts.cc:446-494 | so do both congruous layouts |
| LayoutPlaces.ACongruousPlaces | src/layout/gemm_layouts.cc:446-469 | the address of every element of the A-congruous layout from the digits of its row and column |
| LayoutPlaces.BCongruousPlaces | src/layout/gemm_layouts.cc:471-494 | the same for B |
| VoltaLayouts.VoltaABLayoutPermutes | src/layout/gemm_layouts.cc:496-505 | every branch is injective, every unpadded one a permutation, and it fails exactly on its own checks |
| LayoutPlaces.VoltaABLayoutPlaces | src/layout/gemm_layouts.cc:496-505 | each branch gives the layout of its own name |
| Swizzle.SwizzleInvolution | src/layout/swizzle.cc:28-35 | every accepted pattern undoes itself on all offsets and keeps each offset in its block |
| Swizzle.InvolutionIffAccepted | src/layout/swizzle.cc:20-35 | the constructor accepts exactly bits <= shift, and these are exactly the patterns that undo themselves |
| BankSwizzle.FullIsPattern | src/layout/gemm_layouts.cc:339-355 | full-bank index = pattern (3, log2 v, 3) of the row-major offset in the tile |
| BankSwizzle.HalfIsPattern | src/layout/gemm_layouts.cc:321-337 | half-bank index = pattern (2, log2 v, 3) |
| BankSwizzle.KinnerIsPattern | src/layout/gemm_layouts.cc:382-393 | K-inner index = pattern (2, 0, 4) |
| BankSwizzle.KouterIsPattern | src/layout/gemm_layouts.cc:395-406 | K-outer index = pattern (2, 2, 2) |
| BankSwizzle.FullBankGroupsDiffer | src/layout/gemm_layouts.cc:339-355 | the 8 rows of a 16-byte column fall into 8 different bank groups |
| BankSwizzle.HalfBankGroupsDiffer | src/layout/gemm_layouts.cc:321-337 | the same for half bank |
| BulkCopy.SharedOffset | src/op/bulk_copy.cc:117-131 | the stride and offset loops compute the row-major position, and fail exactly on a rank mismatch |
| BulkCopy.RangesTile | src/op/bulk_copy.cc:245-262 | the iterations' ranges are disjoint and make up the tile |
| BulkCopy.FullCopyLands | src/op/bulk_copy.cc:193-262 | the address of element (i, j) of a full-bank tile is the start of iteration j / instruction_dim plus pattern (3, log2 v, 3) of its offset in the box, inside that iteration's range |
| BulkCopy.HalfCopyLands | src/op/bulk_copy.cc:193-262 | the same for half bank with pattern (2, log2 v, 3) |
| BulkCopy.LinearCopyLands | src/op/bulk_copy.cc:190-262 | without a layout this holds if and only if the tile has one row or at most 256 columns |
| BulkCopy.PaddedCopyLands | src/op/bulk_copy.cc:190-262 | with the padded layout, if and only if the tile has one row, or at most 256 columns and no padding |
| BulkCopy.DetectsItself | src/op/bulk_copy.cc:190-214 | a padded, half-bank or full-bank tile is detected as what it is, comparing in the order of the code |
| FlashAttention.FirstBlock | examples/flash_attention/flash_attn_npuir.py:192-241 | one block of the first loop: sum, saved scale and probabilities stay consistent, whatever the buffer held past the tail, and the new maximum is the largest of the old one and the block |
| FlashAttention.FirstLoop | examples/flash_attention/flash_attn_npuir.py:192-241 | logsum stands for the denominator plus the weight of stale columns, zero exactly when the last block is whole |
| FlashAttention.SecondLoop | examples/flash_attention/flash_attn_npuir.py:243-261 | rescaling by the saved scales makes the accumulator stand for the whole weighted sum, whatever scores_scale held on entry |
| FlashAttention.RowIsAttention | examples/flash_attention/flash_attn_npuir.py:180-268 | what both loops compute from any sequence of loaded scores and products is softmax times V if and only if the last block is whole or the weighted sum is zero |
| FlashAttention.FlashRow | examples/flash_attention/flash_attn_npuir.py:180-268 | the method that runs both loops on a row does that |
| FlashLaunch.DotByBlocks | examples/flash_attention/flash_attn_npuir.py:81-113 | accumulating over blocks of the feature dimension gives the dot product |
| FlashLaunch.FlashAttnRow | examples/flash_attention/flash_attn_npuir.py:62-268 | for every row, block size and stale memory: the sum of e^(scale q.k) v over the sum of e^(scale q.k), stated on the tensors alone, if and only if block_n divides seq_len or the weighted sum is zero |
| FlashLaunch.RowOwnedOnce | examples/flash_attention/flash_attn_npuir.py:188-190 | every row is owned by exactly one sub-core of one block, and nobody owns rows past the end |
| FlashRun.RowProduct | examples/flash_attention/flash_attn_npuir.py:121-162 | a row of the product the Cube makes of both halves is that of the probabilities of the sub-core that owns the row |
| FlashRun.RunComputesAttention | examples/flash_attention/flash_attn_npuir.py:62-268 | every finished run of the three cores, in any interleaving, leaves that same quotient of sums over q, k, v and scale in a row of its block if and only if block_n divides seq_len or the weighted sum is zero |
| CorrectH0.Advance | examples/flash_qla/tilelang_correct_h0.py:97-148 | the loop body takes the state on entering a chunk to the state on entering the next one, in every branch |
| CorrectH0.ProductIs | examples/flash_qla/tilelang_correct_h0.py:111-146 | all four gemm orientations compute the transition, transposed or not, applied to the state |
| CorrectH0.OutputDelivers | examples/flash_qla/tilelang_correct_h0.py:63-155 | every chunk receives the state of the recurrence on entering it and nothing else changes; for an empty sequence exactly one chunk outside it is overwritten |
| CorrectH0.KernelBody | examples/flash_qla/tilelang_correct_h0.py:63-155 | the loop computes that output |
| CorrectLaunch.ProgramNumbers | examples/flash_qla/tilelang_correct_h0.py:168-176 | program numbers and (sequence, head, column block) determine each other |
| CorrectLaunch.OthersKept | examples/flash_qla/tilelang_correct_h0.py:150-155 | a program of a sequence that is not empty disturbs no other program's result |
| CorrectLaunch.EmptySpoils | examples/flash_qla/tilelang_correct_h0.py:150-155 | after a program of an empty sequence a result is right only if the chunk strayed to should hold that sequence's initial state, and then it stays right |
| CorrectLaunch.StateIs | examples/flash_qla/tilelang_correct_h0.py:97-148 | the state a program carries into each chunk is the recurrence over its own sequence and head, read from the launch's tensors |
| CorrectLaunch.DoneDefines | examples/flash_qla/tilelang_correct_h0.py:63-155 | all programs have delivered their results if and only if every chunk of every sequence and head holds the state of that recurrence, transposed as asked |
| CorrectLaunch.CorrectStates | examples/flash_qla/tilelang_correct_h0.py:168-225 | the launch computes the output as a function of the program order; every chunk of every sequence, head and column block ends with the state of the recurrence over seq_map, mt, ht and mask of that sequence and head if no empty sequence does harm, and only if the last program of the order does none |
| CorrectLaunch.OrdersDecide | examples/flash_qla/tilelang_correct_h0.py:168-225 | the launch leaves those states in every program order if and only if the initial state of no empty sequence differs from the state that belongs in the chunk it is copied to |
| CorrectLaunch.MapDecides | examples/flash_qla/tilelang_correct_h0.py:168-225 | it is right for all data, all orders and any memory if and only if every empty sequence whose final copy falls on a sequence falls on one of a single chunk, and states start from zero: a condition on seq_map, zero_init and reverse alone |
| CorrectLaunch.EmptyDoesHarm | examples/flash_qla/tilelang_correct_h0.py:150-155 | an input and an order on which the launch is wrong whatever the memory held |
| CorrectLaunch.BoundsDecide | examples/flash_qla/tilelang_correct_h0.py:150-155 | nothing outside the output is written, for all data and orders, if and only if no empty sequence comes first, or in reverse last |
| CorrectH0.OutputTransposed | examples/flash_qla/tilelang_correct_h0.py:86-155 | the state_v_first run is the transpose of the other layout's run |
| CorrectH0.Adjoint | examples/flash_qla/tilelang_correct_h0.py:111-146 | moving the transition to the other side of an inner product transposes it |
| CorrectH0.Telescopes | examples/flash_qla/tilelang_correct_h0.py:315-332 | initial- and terminal-state correction are dual: the pairing of d with the next h changes along the sequence by exactly what the chunks inject |
| Engram.Convolve | examples/engram/engram_decode.py:117-134 | taps read from the register give the dilated causal convolution of the history |
| Engram.Shift | examples/engram/engram_decode.py:140-145 | the register goes on holding the last tokens, oldest first |
| Engram.GateDecode | examples/engram/engram_decode.py:59-115 | the gate, the gated value and its normalisation are those of the definition |
| Engram.DecodeStep | examples/engram/engram_decode.py:38-152 | one token: output of the convolution of the history, register moved on |
| Engram.Decode | examples/engram/engram_decode.py:38-152 | from a zero register every token's output is that of the whole-history convolution, for any register of at least dilation * (w - 1) and one entries |
| Engram.GatePass1 | examples/engram/engram_fwd.py:53-115 | gate, gated value and the three reciprocal root mean squares it saves are those of the definition, whose factors the kernel takes in another order |
| Engram.GatePass2 | examples/engram/engram_fwd.py:163-195 | the output at a token is that of the width-4 convolution, taps before the beginning reading zeros |
| Engram.Forward | examples/engram/engram_fwd.py:38-195 | the same for the whole sequence |
| Engram.DecodeIsForward | examples/engram/engram_fwd.py:163-195 | with width 4 and dilation 1 both give the same outputs on the same h, k, v |
| EngramBackward.GradientsAgree | examples/engram/engram_bwd_exp.py:63-131 | sum d * conv = sum w * dw = sum dx * x for every length, batch and tap count, with clipping at both ends |
| EngramBackward.AnyOrder | examples/engram/engram_bwd_exp.py:129-129 | the order of the atomic adds does not matter |
| EngramBackward.TokenGrad | examples/engram/engram_bwd_exp.py:70-104 | dY times the derivative of the activation at the convolution of the normalised history |
| EngramBackward.Pass1Token | examples/engram/engram_bwd_exp.py:63-131 | one token adds its share to every tap and to nothing else |
| EngramBackward.GridVisitsOnce | examples/engram/engram_bwd_exp.py:41-66 | the programs, in any order, visit every token of every row exactly once, for every block size |
| EngramBackward.Pass1 | examples/engram/engram_bwd_exp.py:63-131 | in any order of tokens dconv_w is the sum of all shares |
| EngramBackward.Pass1Launch | examples/engram/engram_bwd_exp.py:41-131 | so it is after the whole grid, programs in any order, and the buffer holds the activation gradient of every token and is unchanged elsewhere |
| EngramBackward.Pass2Token | examples/engram/engram_bwd_exp.py:201-218 | d_vnorm is the clipped correlation of the taps with the gradients |
| EngramBackward.PassesAgree | examples/engram/engram_bwd_exp.py:201-218 | what the two passes leave satisfies the identity in every channel |
| EngramPasses.Pass2Row | examples/engram/engram_bwd_exp.py:205-248 | the gradient of vhat at a token, back through its normalisation and with dY added, and the token's share of drms_w_v |
| EngramPasses.Pass2Launch | examples/engram/engram_bwd_exp.py:176-248 | after the whole grid, programs in any order: the gradient of vhat at every token and nothing else written, drms_w_v the sum of all shares |
| EngramPasses.Pass3Row | examples/engram/engram_bwd_exp.py:331-419 | the gradients of h, k and v at a token, back through the gate and both normalisations, and the token's share of drms_w_h |
| EngramPasses.Pass3Launch | examples/engram/engram_bwd_exp.py:293-421 | after the whole grid, programs in any order, each adding its local sum at once: all gradients of h, k and v, and drms_w_h the sum of all shares |
| EngramTangent.LossSlope | examples/engram/engram_fwd.py:53-195 | the loss of a row has a derivative along any motion of its inputs and weights: the tangent computed stage by stage |
| EngramGradient.NormAdjoint | examples/engram/engram_bwd_exp.py:229-243 | the gradient formula of the normalisation is the transpose of its derivative |
| EngramGradient.TokenAdjoint | examples/engram/engram_bwd_exp.py:346-412 | so are the formulas of the gate |
| EngramGradient.RowAdjoint | examples/engram/engram_bwd_exp.py:63-412 | the derivative of a row's loss along any direction is the sum of all gradients paired with it |
| EngramDerivative.SiluSlope | examples/engram/engram_bwd_exp.py:98-104 | sig + x sig (1 - sig) is the derivative of the forward pass's x sigmoid(x) |
| EngramDerivative.RowLossIs | examples/engram/engram_fwd.py:53-195 | the stages the derivative is taken of are the forward pass |
| EngramDerivative.LossSlope | examples/engram/engram_fwd.py:38-195 | the outputs of the forward pass on the whole batch, weighted by dY, have a derivative along every direction of h, k, v, rms_w_h, rms_w_v and conv_w together |
| EngramDerivative.AlwaysDifferentiable | examples/engram/engram_fwd.py:62-115 | they have it for every input when eps is positive, sigmoid is 1 / (1 + exp(-x)) and rsqrt is 1 / sqrt(x) |
| EngramTraining.GradientIsDerivative | examples/engram/engram_bwd_exp.py:447-489 | dH, dk, dv, drms_w_h, drms_w_v and dconv_w, each paired with its part of any direction, add up to that derivative |
| EngramTraining.Backward | examples/engram/engram_bwd_exp.py:447-489 | from what the forward pass saved, the three launches, each with its programs in any order and any block size, return gradients whose pairing with every direction is the derivative of the loss along it |
| Indexer.Extremes | examples/indexer/indexer_fwd.py:112-116 | smallest ks and largest ke of a block of queries |
| Indexer.PrepareMetadata | examples/indexer/indexer_fwd.py:100-124 | the tile range of every query block lies inside the keys and holds every key some query of the block may see |
| Indexer.Tile | examples/indexer/indexer_fwd.py:64-95 | a tile holds the dense score where ks <= k < ke and minus infinity elsewhere |
| Indexer.IndexerKernel | examples/indexer/indexer_fwd.py:39-95 | a block writes the dense answer on its rows and visited tiles and nothing else |
| Indexer.IndexerFwd | examples/indexer/indexer_fwd.py:127-158 | all logits equal the dense masked ones, also where no tile was visited |

## Left out

- Floating-point rounding, casts, infinities in running maxima: the claims are about exact arithmetic. Where the code
  starts a maximum at minus infinity the first block simply sets it.
- The simplifier, iterator-map detection and inversion of the compiler library, and with them layout inversion and the
  ldmatrix copy: digit lists with constant factors are taken as given; symbolic extents are not modelled.
- CondenseKeepsThreads: for thread expressions that are not positional the condition is sufficient only; combinations
  may collide in the scaled sum.
- InferFragmentIndex: for thread expressions that are not positional the divisor condition is necessary only, since
  different thread digits may collide in the scaled sum.
- FullCopyLands: element sizes of 1, 2, 4, 8 and 16 bytes, for which 16 bytes hold a whole number of elements.
- The fields of the copy descriptor other than box, mode and addresses, and copies of part of a tile.
- makeMatrixCoreSwizzleLayout: staying inside the row needs a power-of-two vector count that the code does not check.
- The multi-block softmax of examples/deepseek_v32/sparse_mla_fwd.py, the in-place second backward pass of
  examples/engram/engram_bwd.py and the approximate ReLU masks of the lighting indexer's backward pass.
- Op registration, code generation, autotuning, packaging and the plain tiled add, matmul and norm examples.
