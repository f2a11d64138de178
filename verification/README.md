# Whitee, modelled and proved

Whitee compiles SysY to ARMv7-A assembly. This project models the parts of it where a
mistake would be hardest to see, and proves what those parts are for. The modules follow
the compiler's pipeline:

| part | files |
|---|---|
| structured code to basic blocks, array layout | `Lowering.dfy`, `IrBuild.dfy`, `Arrays.dfy` |
| SSA construction on the fly | `SsaConstruction.dfy`, `SsaCascade.dfy`, `SsaCollapse.dfy`, `SsaReading.dfy`, `SsaBuilding.dfy`, `SsaReads.dfy`, `SsaLoopFree.dfy`, `SsaStaleReturn.dfy` |
| optimisation of the IR | `NaturalLoops.dfy`, `LoopInvariantMotion.dfy`, `MotionGraph.dfy`, `MotionStrict.dfy`, `TrivialPhis.dfy`, `MotionThorough.dfy`, `MotionPass.dfy`, `LocalCse.dfy` |
| phi elimination | `PhiElimination.dfy` |
| register allocation | `ConflictGraph.dfy`, `RegisterColouring.dfy`, `RegisterAlloc.dfy` |
| machine code | `MachineOptUtil.dfy`, `MagicDivision.dfy`, `MachineOptimize.dfy`, `FrameLayout.dfy`, `CallProtocol.dfy`, `LiteralPools.dfy` |
| shared vocabulary | `Cfg.dfy` (graphs, walks, dominance), `Ssa.dfy` (programs and their runs), `Arm.dfy` (32-bit arithmetic), `ArmStack.dfy` (stack instructions), `Wrappers.dfy` (an optional value) |

Code that works by changing things in place is a class or a loop here too: the SSA builder,
the block builder, the loop finder, the two IR passes, the alive-set marker, the colouring
(whose working graph shares its neighbour-set objects with the conflict graph), the frame
and the pool placer. Each method is tied to a specification, and the main theorems are
about that specification: an interpreter of programs for the IR passes (all runs, any
meaning of the operators, any length), paths through a cyclic graph for SSA construction,
all machine states for instruction sequences.

## What turned out not to hold

- Dividing by a negative constant that is not a power of two, or by -2^31, whose sign bit
  the test for powers of two masks. The multiply path never looks at the sign
  (`src/optimize/machine/machine_optimize.cpp:65-105`), so it computes n / |c|.
  `DivisionExactIff` says exactly when that is n / c; `NegativeDivisorFails` is 7 / -3.
  The same path uses R3 without allocating it: a value pending in R3 is replaced by the high
  word of the product, and a dividend in R3 does not enter the result
  (`DivOptimization`, `DividendInR3IsLost`).
- Multiplying by -2^31. Its neighbour 2^31 + 1 looks like 2^0 once the sign bit is masked
  (`src/optimize/machine/machine_optimize.cpp:185-187`), so the product comes out as 0.
  `MultiplicationExactIff`: right exactly for even numbers.
- `removeTrivialPhi` can return a phi that its own cascade has removed
  (`src/ir/ir_ssa.cpp:76-85`): the result is only updated when a user of the removed phi is
  itself the phi the result names, not when a nested call removes it. `SsaCollapse` tells
  both the phis that go and when the result is right from the builder before the call. A phi
  joins what is gone when it uses some of it and, with the one value read in its place, has
  one other operand at most; what goes with x is everything that joins in the end, and
  `GoneExactly` shows that the cascade removes exactly that in every order of users. The
  result is right when the value merged, followed through phis that join at once, does not
  go itself (`Safe`). That is exact: `SafeIsRight` holds in every order, and for whatever is
  not safe `UnsafeIsStale` gives an order that returns a removed phi. Where the merged value
  does not use x the condition is just that it does not go (`UnvisitedIsSafeIff`), and it is
  met whenever no chain of users leads from x to it (`NoChainIsSafe`) or it is older than the
  read (`OlderIsSafe`).
  Reading and sealing are functions too (`SsaReading`), which also say whether every removal
  that mattered was safe; the builder's methods equal these functions, and their `sound` flag
  is exactly that. Sealing ignores the value returned and so its own removals. Only loops can
  do harm: `ReadIsRight` shows that reading through blocks that form no cycle is right in
  every order, from every state the builder keeps. `StaleRun` makes a builder do it: starting
  from nothing, its operations lead to a read that returns and records a removed phi, whatever
  the orders (`StaleReturn`).
- Arguments held in temporaries. The argument moves are sequential, not parallel
  (`src/machine_ir/machine_ir_build.cpp:759-800`), so an argument in R0 to R3 can be
  overwritten before it is read. `ArgumentsArriveIff` is the exact condition; the front end
  keeps an argument in a temporary only when it is the sole one, and `CompiledArgumentsArrive`
  shows that this is enough.
- Parameters nobody uses. Such a parameter is in the conflict graph without edges
  (`UnusedParameterIsIsolated`), so it may get the register of another parameter
  (`UnusedParameterMayShare`), and the entry code then writes both
  (`src/machine_ir/machine_ir_build.cpp:152-180`). `ParametersArriveIff` is the exact
  condition; `FirstOfTwoIsLost` is the case of two parameters in R4.
- A call whose int result is unused moves it to R1 after the saved registers are restored
  (`src/machine_ir/machine_ir_build.cpp:849-871`), and nobody has asked for R1.
  `RestoredIff`: the registers needed after the call are restored in every state exactly
  unless the callee returns an int, the result is unused and R1 is needed;
  `UnusedResultOverwrites` is the case of R0 and R1 saved.
- Pools of more than 225 literals. The distance to a pool is limited, its size is not
  (`src/machine_ir/machine_ir_build.cpp:243-248`). `WithinOffsetIff` says exactly when a load
  reaches its literal; with 300 literals `CrowdedIsTooFar` is a load that does not.
- A phi move without a register is charged once per predecessor, not once
  (`src/ir/ir_utils.cpp:246-250`): the second occurrence takes the next branch. The frame is
  larger than intended, never smaller.

## Model

| member | source | states |
|---|---|---|
| MachineOptUtil.CountPowerOfTwo | src/optimize/machine/machine_opt_util.cpp:3-14 | for every 32-bit word, returns k exactly when the low 31 bits are 2^k, and nothing otherwise |
| MachineOptUtil.CalDivMagicNumber | src/optimize/machine/machine_opt_util.cpp:16-26 | for every divisor from 3 to 2^31 that takes this path, the 32-bit result m satisfies 2^(32+l) < m*d <= 2^(32+l) + 2^(l+1) for the shift l of the other function, so the truncation to 32 bits loses nothing |
| MachineOptUtil.CalDivShiftNumber | src/optimize/machine/machine_opt_util.cpp:28-38 | both searches stop at the same shift |
| MachineOptUtil.MagicIsExact | src/optimize/machine/machine_opt_util.cpp:20-24 | the search takes at least one step and ends with a multiplier inside the bounds that make the quotient exact |
| MachineOptUtil.IntermediatesFit | src/optimize/machine/machine_opt_util.cpp:17-19 | the shifted sums of the search never leave 64 bits |
| MagicDivision.MagicShapes | src/optimize/machine/machine_optimize.cpp:81-105 | for every 32-bit n, the high word of m*n, shifted and corrected by the sign, is n/d truncated toward zero, both for multipliers below 2^31 and for those read as negative and repaired by adding n |
| MachineOptimize.EmitShiftDivision | src/optimize/machine/machine_optimize.cpp:36-63 | the shift sequence leaves n divided by plus or minus 2^k, truncated toward zero, in the destination and changes no register but it and one temporary |
| MachineOptimize.EmitMagicDivision | src/optimize/machine/machine_optimize.cpp:64-108 | the multiply sequence leaves n/d truncated toward zero for every n and every d from 3 to 2^31 that takes this path, also when destination and dividend are one register |
| MachineOptimize.DivisionExactIff | src/optimize/machine/machine_optimize.cpp:32-68 | for every divisor but 0, what the emitted division computes is the truncated quotient exactly when the divisor's magnitude is a power of two below 2^31, the divisor is positive, or the dividend is smaller in magnitude |
| MachineOptimize.DividendInR3IsLost | src/optimize/machine/machine_optimize.cpp:68-85 | with the dividend in R3 the multiply path is wrong for 0 or for the divisor's magnitude |
| MachineOptimize.NegativeDivisorFails | src/optimize/machine/machine_optimize.cpp:65-105 | 7 / -3 comes out as 2 |
| MachineOptimize.DivOptimization | src/optimize/machine/machine_optimize.cpp:16-118 | the whole operation, register bookkeeping included: the quotient reaches the value's register or slot, temporaries are given back, no register changes but free ones, the destination and R3 on the multiply path, where a pending R3 is left with the high word of the product; a power of two costs no multiplication and four instructions at most, any other divisor one multiplication and six |
| MachineOptUtil.CanConvertTwoPowMul | src/optimize/machine/machine_opt_util.cpp:54-68 | a result is a true factorisation x = 2^a * (2^b plus or minus 1); no result means that there is none |
| MachineOptimize.EmitMultiplication | src/optimize/machine/machine_optimize.cpp:138-221 | for every word n and every word constant c, each of the ten shapes leaves n*c modulo 2^32, and 0 for c = -2^31, in three instructions at most; a multiplication is among them exactly when |c| is neither 0, 2^31, within one of a smaller power of two, nor 2^a times such a neighbour |
| MachineOptimize.MultiplicationExactIff | src/optimize/machine/machine_optimize.cpp:174-187 | the emitted product is right exactly unless the constant is -2^31 and the other factor odd |
| MachineOptimize.MulOptimization | src/optimize/machine/machine_optimize.cpp:120-231 | the whole operation: the product reaches its register or slot, temporaries are given back, no other register changes, and it multiplies only where no shift and addition would do |
| NaturalLoops.SolvedIsExact | src/optimize/ir/loop_invariant_code_motion.cpp:60-81 | a fixpoint below the initial sets is exactly dominance: d is in the set of b iff every walk from the entry to b visits d |
| NaturalLoops.LoopFinder.Pass | src/optimize/ir/loop_invariant_code_motion.cpp:62-80 | one sweep either changes nothing and every equation holds, or makes the total size of the sets smaller; comparing sizes is enough |
| NaturalLoops.LoopFinder.BuildDominateTree | src/optimize/ir/loop_invariant_code_motion.cpp:45-82 | terminates with exactly the dominators of every block |
| NaturalLoops.HeaderDominatesLoop | src/optimize/ir/loop_invariant_code_motion.cpp:84-123 | the header of a loop dominates all its members, several back edges included |
| NaturalLoops.PredecessorInLoop | src/optimize/ir/loop_invariant_code_motion.cpp:97-112 | every predecessor of a member other than the header is a member |
| NaturalLoops.LoopFinder.CollectLoop | src/optimize/ir/loop_invariant_code_motion.cpp:88-112 | the work list collects exactly the blocks that reach the back edge's source without passing the header |
| NaturalLoops.LoopFinder.FindLoopBlocks | src/optimize/ir/loop_invariant_code_motion.cpp:84-123 | loops are recorded for exactly the headers of back edges, with exactly their members |
| LoopInvariantMotion.FindInvariantCodes | src/optimize/ir/loop_invariant_code_motion.cpp:125-162 | what is moved can be hoisted in that order, and what stays is the rest of each block in its order; for some order of the loop's blocks, a unary or binary instruction stays only if one of its operands stood in the loop when it was looked at |
| LoopInvariantMotion.ThoroughMovesInvariants | src/optimize/ir/loop_invariant_code_motion.cpp:129-158 | so, whatever that order, a unary or binary instruction none of whose operands is defined in the loop is moved |
| LoopInvariantMotion.HoistedOperandsDefined | src/optimize/ir/loop_invariant_code_motion.cpp:132-142 | each operand of a hoisted instruction is hoisted before it or defined outside the loop in a block dominating the header |
| LoopInvariantMotion.MotionPreserves | src/optimize/ir/loop_invariant_code_motion.cpp:125-212 | every run of the original corresponds, step by step, to a run of the moved program at the same place with the same values, for any meaning of the operators |
| LoopInvariantMotion.ResultsAreOriginal | src/optimize/ir/loop_invariant_code_motion.cpp:125-212 | the converse: whatever result the moved program reaches, the original reaches |
| LoopInvariantMotion.FunctionIr.FixNewForwardBlock | src/optimize/ir/loop_invariant_code_motion.cpp:164-212 | outside predecessors go through the new block, header phis are split between the two, and nothing else changes |
| LoopInvariantMotion.FunctionIr.MoveLoop | src/optimize/ir/loop_invariant_code_motion.cpp:125-212 | a loop is left alone only if each unary or binary instruction in it reads something defined in the loop; otherwise all that do not are moved and the IR becomes one to which the two theorems above apply |
| MotionStrict.StrictAgain | src/optimize/ir/loop_invariant_code_motion.cpp:164-198 | the moved program is in strict SSA form again: one definition for each id, dominating every use, phi operands for exactly the predecessors, every block reachable |
| MotionStrict.OtherLoops | src/optimize/ir/loop_invariant_code_motion.cpp:84-123 | a loop without this header is the same set of blocks afterwards, so the sets found at the start stay good for the headers still to come |
| TrivialPhis.DefinedAbove | src/ir/ir_ssa.cpp:52-60 | what a trivial phi merges is defined in another block, which dominates the phi's |
| TrivialPhis.RemovalPreserves | src/ir/ir_ssa.cpp:52-75 | step by step, the program with the merged value in place of the phi does what it did before: same blocks, same effects, same values, same result |
| TrivialPhis.StrictAfter | src/ir/ir_ssa.cpp:52-75 | and it is in strict SSA form again |
| MotionThorough.MotionLeaves | src/optimize/ir/loop_invariant_code_motion.cpp:125-162 | code that reads nothing of its loop stands in no block of the loop once the loop is done |
| MotionThorough.MergedOutside | src/optimize/ir/loop_invariant_code_motion.cpp:209-217 | the value a removed phi is replaced by in a loop's code is defined in that loop only if the phi was, so the clean-up makes no code variant |
| MotionThorough.ListedAfterMotion | src/optimize/ir/loop_invariant_code_motion.cpp:221-226 | with the new block directly before the header, no block is listed before one that dominates it if none was |
| MotionPass.MotionPass.RemoveTrivialPhi | src/ir/ir_ssa.cpp:52-86 | outside the construction too the cascade terminates; every removal on the way keeps results and strict form; a trivial phi is gone, another one is left alone, and no phi becomes trivial that was not |
| MotionPass.MotionPass.LoopInvariantMotion | src/optimize/ir/loop_invariant_code_motion.cpp:29-217 | the whole pass over a function, nested and successive loops and the clean-up of phis included: the function returns exactly what it returned before, for any meaning of the operators, and is in strict SSA form again; what was invariant in a loop at the start stands in no block of that loop at the end; a phi trivial at the end was trivial at the start; dominators stay in front in the list of blocks |
| MotionPass.DominatorsFirstSuffices | src/optimize/ir/loop_invariant_code_motion.cpp:36-38 | headers come in the order the pass relies on whenever blocks are listed after their dominators, as `FunctionToIr` lists them |
| LocalCse.EquationsHold | src/optimize/ir/local_common_subexpression_elimination.cpp:13-52 | on every run, wherever the definition of a pure v = op(args) is available, v currently equals op of the current operands, loops included |
| LocalCse.EqualsSound | src/ir/ir.cpp:261-310 | two values judged equal, structurally or by swapping operands of + and *, hold equal values at every such point |
| LocalCse.EqualsIsCongruence | src/ir/ir.cpp:261-310 | instructions with the same operator whose operands are judged equal are judged equal themselves, for + and * with the operands in either order |
| LocalCse.ReplacementPreserves | src/ir/ir.cpp:214-310 | replacing values by equal ones and deleting the replaced keeps every run: same blocks, same effects, same remaining values |
| LocalCse.FunctionIr.BlockCommonSubexpressionElimination | src/optimize/ir/local_common_subexpression_elimination.cpp:13-52 | one block's pass keeps the replacement sound wherever values are in memory, and instructions of the block that still repeat one another, swapped operands of + and * counting as the same, stand behind another expression with their hash code |
| LocalCse.FunctionIr.LocalCommonSubexpressionElimination | src/optimize/ir/local_common_subexpression_elimination.cpp:5-11 | the pass preserves every run for every meaning in which + and * commute; of two equal expressions of a block one goes, unless another expression in front of both had their hash code when the block was done |
| PhiElimination.Function.PhiElimination | src/ir/ir_utils.cpp:259-284 | every predecessor gets one move per phi before its branch and comparison, every phi block one copy per phi at the head, in some order; nothing comes twice when no block is listed twice and no phi is in two blocks |
| PhiElimination.RunLaidOut | src/machine_ir/machine_ir_build.cpp:1255-1291 | running such a block copies all temporaries first, then computes the block's instructions on those values, then leaves every successor's operands in its temporaries |
| PhiElimination.EliminationRefines | src/ir/ir_utils.cpp:259-284 | for any number of steps, the program with temporaries visits the same blocks with the same values as the one whose phis happen in parallel: swaps, lost copies, self loops and critical edges included |
| SsaConstruction.RemovalKeeps | src/ir/ir_ssa.cpp:52-86 | removing a trivial phi keeps the builder consistent: every other phi and variable map still stands for the same value on all paths |
| SsaConstruction.CascadeStep | src/ir/ir_ssa.cpp:76-84 | the same within a cascade, whose further candidates are complete phis |
| SsaConstruction.ResultIsRight | src/ir/ir_ssa.cpp:76-85 | the value returned follows to the one that now stands for the phi, and is that value unless it is itself removed |
| SsaCollapse.GoneExactly | src/ir/ir_ssa.cpp:52-86 | whatever the order of users, the cascade removes exactly the phis that join x by the rule on the state before the call |
| SsaCollapse.SafeIsRight | src/ir/ir_ssa.cpp:52-86 | if the merged value, followed through phis that join at once, does not go itself, the value returned is no removed phi, in every order of users |
| SsaCollapse.UnsafeIsStale | src/ir/ir_ssa.cpp:76-85 | otherwise there is an order of users in which a removed phi is returned |
| SsaCollapse.OutsideIsSafe | src/ir/ir_ssa.cpp:52-86 | merging a value that does not go is always right |
| SsaCollapse.UnvisitedIsSafeIff | src/ir/ir_ssa.cpp:76-85 | if the merged value does not itself use the phi, the result is right in every order exactly when that value does not go |
| SsaCollapse.NoChainIsSafe | src/ir/ir_ssa.cpp:76-85 | if no chain of phi users leads from the phi to the value it merges, the result is right in every order |
| SsaCollapse.OlderIsSafe | src/ir/ir_ssa.cpp:52-86 | merging a phi from before the read, or no phi, always gives the right result |
| SsaLoopFree.ReadIsRight | src/ir/ir_ssa.cpp:7-86 | reading through blocks without a value that form no cycle is right in every order: every removal on the way is safe |
| SsaStaleReturn.StaleReturn | src/ir/ir_ssa.cpp:19-86 | a four-block function in which reading a variable returns and records a phi the read itself removed, in every order of users, predecessors and places |
| SsaStaleReturn.StaleRun | src/ir/ir_ssa.cpp:7-101 | the builder operations that get there from an empty builder |
| SsaBuilding.SingleOperand | src/ir/ir_ssa.cpp:53-60 | the scan finds the one operand besides the phi itself, or says that there are several |
| SsaBuilding.SsaBuilder.RemoveTrivialPhi | src/ir/ir_ssa.cpp:52-86 | the recursion terminates with the state and result of the cascade function; exactly what goes with the phi is gone; if the removal was safe the result is no removed phi; consistency of everything else is kept in any case |
| SsaBuilding.SsaBuilder.ReadLocalVariable | src/ir/ir_ssa.cpp:7-10 | terminates on cyclic graphs with the state and value of the reading function; the flag falls exactly when one of the removals made for it was not safe, and while it stands the value is the one standing for the variable at the block's end |
| SsaBuilding.SsaBuilder.ReadLocalVariableRecursively | src/ir/ir_ssa.cpp:19-39 | the same through unsealed, single-predecessor and merging blocks; the phi is recorded before its operands are read, and its removal must be safe |
| SsaReading.ReadAlongChain | src/ir/ir_ssa.cpp:7-28 | reading through sealed blocks with one predecessor each, up to a block that has a value, gives that value to all of them and makes no phi |
| SsaBuilding.SsaBuilder.AddPhiOperands | src/ir/ir_ssa.cpp:41-50 | fills one operand per predecessor while reading may add phis and remove others; the flag depends on those reads only, not on the final removal |
| SsaBuilding.SsaBuilder.SealBasicBlock | src/ir/ir_ssa.cpp:88-101 | completing the waiting phis of a block keeps the builder ready for all further steps; the values their removal returns do not matter |
| SsaBuilding.SsaBuilder.WriteLocalVariable | src/ir/ir_ssa.cpp:12-17 | an assignment records the value and keeps the builder ready |
| SsaBuilding.SsaBuilder.UseVariable | src/ir/ir_ssa.cpp:7-39 | a use appended after reading gets the value read and keeps the builder ready |
| SsaReads.UsesSeeLastAssignment | src/ir/ir_ssa.cpp:7-101 | in a finished function, on every path from the entry, a use evaluates to what the last assignment to its variable on that path stored, or without one to the undefined value the variable has at the entry |
| SsaReads.ReachableIsGrounded | src/ir/ir_ssa.cpp:25-38 | when all blocks are reachable, chains of single predecessors end, which is what termination of reading rests on |
| Lowering.CondRuns | src/ir/ir_build.cpp:558-605 | from a lowered condition control reaches the true or the false block as the source evaluates it, with the effects of exactly the operands evaluated, in their order |
| Lowering.StmtRuns | src/ir/ir_build.cpp:176-371 | from a lowered statement control does what the statement does: falls through, leaves or repeats the loop, returns with the same value and state, or goes on as long as it does |
| Lowering.LoopRuns | src/ir/ir_build.cpp:310-353 | the inverted loop, whose condition stands both before it and in the judge block, runs like the loop |
| Lowering.ReturnsExactly | src/ir/ir_build.cpp:176-371 | the lowered function returns a value with a final state iff the source does |
| IrBuild.FunctionBuilder.ConditionToIr | src/ir/ir_build.cpp:558-605 | the blocks made for a condition are a lowering of it, edges recorded at both ends, earlier code unchanged, each block listed behind one that leads to it |
| IrBuild.FunctionBuilder.StmtToIr | src/ir/ir_build.cpp:176-371 | the blocks made for a statement are a lowering of it, and the jump flag is what the statement's form says |
| IrBuild.FunctionBuilder.IfElseToIr | src/ir/ir_build.cpp:274-309 | the same for two branches, the end block being listed only if one of them reaches it |
| IrBuild.FunctionBuilder.WhileToIr | src/ir/ir_build.cpp:310-353 | the same for loops, the judge block being finished only if something jumps to it |
| IrBuild.FunctionBuilder.BlockToIr | src/ir/ir_build.cpp:113-117 | the same for statement lists: nothing is emitted after a jump |
| IrBuild.FunctionBuilder.FunctionToIr | src/ir/ir_build.cpp:113-117 | for every body, meaning and initial state, the blocks built return exactly what the source returns; predecessors and successors mirror each other; the entry is listed first and has no predecessor, no block is listed twice or before one that dominates it, every listed block is reachable, and edges join listed blocks only |
| IrBuild.InOrderDominates | src/ir/ir_build.cpp:65-353 | a list in which each block but the entry is led to from further up has dominators first and only reachable blocks |
| Arrays.ToOneDimensionArray | src/front/syntax/syntax_tree.cpp:369-389 | for any dimensions and any partial nested list the flattened offsets increase strictly, stay in range, and each index present in the list has its value at its row-major offset |
| Arrays.ListedElement | src/front/syntax/syntax_tree.cpp:325-345 | the flattened list gives back, at the offset of any full index, the nested element, or zero where the list has none |
| Arrays.VarDefToIr | src/ir/ir_build.cpp:136-169 | one store per offset in increasing order, with the listed value or zero |
| Arrays.PointerToIr | src/ir/ir_build.cpp:624-658 | a full index yields the row-major element offset; a partial one the byte offset of the sub-array |
| Arrays.OffsetInjective | src/ir/ir_build.cpp:626-644 | different indices have different offsets |
| Arrays.GlobalValue | src/ir/ir.cpp:43-59 | the size is the product of the dimensions and the sparse values are the initialiser's elements |
| Arrays.EmitData | src/machine_ir/machine_ir.cpp:32-48 | the directives expand to exactly size words, each the value kept for its offset or zero; every space is a positive multiple of four bytes, and all together they are 4 * size bytes |
| Arrays.GlobalRoundTrip | src/machine_ir/machine_ir.cpp:32-68 | the emitted word at the offset of a full index is the initialiser's element there, or zero |
| ConflictGraph.GetBlockReachableBlocks | src/optimize/ir/register_alloc.cpp:412-426 | exactly the blocks reached by a path that never enters the forbidden block |
| ConflictGraph.GetBlockPathPoints | src/optimize/ir/register_alloc.cpp:380-410 | exactly the blocks from which the goal is reached, on the way from a block, without coming back to that block |
| ConflictGraph.ConflictBuilder.MarkUse | src/optimize/ir/register_alloc.cpp:228-267 | after marking one use the value is alive all the way from its definition to it, skipping work only when it was marked before; what is newly marked lies on the way to that use |
| ConflictGraph.ConflictBuilder.BuildAlive | src/optimize/ir/register_alloc.cpp:79-289 | after all uses, phi moves included, every definition-to-use stretch is marked |
| ConflictGraph.LivenessIsSound | src/optimize/ir/register_alloc.cpp:79-289 | a value live at an instruction, by paths to a use, is in the alive set of its block or of the instruction |
| ConflictGraph.AliveIsLive | src/optimize/ir/register_alloc.cpp:79-289 | and conversely: the alive sets hold a value at an instruction exactly when some path from there comes to a use of it before any definition |
| ConflictGraph.LiveValuesConflict | src/optimize/ir/register_alloc.cpp:290-329 | two values live at one point are joined although block-wide and instruction-wide sets are never crossed: the edge comes from a definition or a predecessor |
| ConflictGraph.ConflictIff | src/optimize/ir/register_alloc.cpp:79-329 | two values are joined exactly when both are live at one instruction, or one passes through the block that defines the other, whatever the order in which uses were marked |
| ConflictGraph.ConflictBuilder.ConnectAll | src/optimize/ir/register_alloc.cpp:290-329 | the graph has exactly the edges the alive sets give |
| ConflictGraph.UnusedConflictIff | src/optimize/ir/register_alloc.cpp:290-329 | a definition without uses is kept apart from exactly the values alive in its whole block |
| RegisterColouring.EraseFromNeighbours | src/optimize/ir/register_alloc.cpp:339-341 | erasing through one graph is seen through the other, since they share the neighbour sets |
| RegisterColouring.Simplify | src/optimize/ir/register_alloc.cpp:336-346 | taking a colourable value off the shared sets keeps what selection needs: its remaining neighbours are those pushed later |
| RegisterColouring.Spill | src/optimize/ir/register_alloc.cpp:347-366 | the same for giving up a value; erasing it a second time through the conflict graph changes nothing more |
| RegisterColouring.Allocator.SimplifyAndSpill | src/optimize/ir/register_alloc.cpp:335-366 | the goto loop terminates; every value is on the stack or given up, never both; each value given up comes first, by weight and then age, in the largest set of values left that all have nine neighbours within it, and none is given up while there is no such set |
| RegisterColouring.GivenUpIsUnique | src/optimize/ir/register_alloc.cpp:335-366 | so the values given up do not depend on the order in which the hash map is gone through |
| RegisterColouring.NoneGivenUpIff | src/optimize/ir/register_alloc.cpp:335-366 | nothing is given up exactly when every set of values has one with fewer than nine neighbours within it |
| RegisterColouring.Allocator.Select | src/optimize/ir/register_alloc.cpp:367-377 | a register is free at every pop, and exactly the stacked values get one |
| RegisterColouring.Allocator.AllocRegister | src/optimize/ir/register_alloc.cpp:332-378 | the colouring is proper for the graph as it was before the shared sets were erased, within R4 to R12; the values that go without are those given up in turn, and there are none exactly when simplification alone suffices |
| RegisterAlloc.RegisterAlloc | src/optimize/ir/register_alloc.cpp:44-56 | end to end: two values live at the same point never share a register, and the values without one are those given up in turn in the graph that liveness determines |
| RegisterAlloc.UnusedParameterMayShare | src/optimize/ir/register_alloc.cpp:58-63 | a parameter without uses has no neighbours, and the colouring stays proper whatever register it gets |
| FrameLayout.GetFunctionRequiredStackSize | src/ir/ir_utils.cpp:241-257 | the size is sixteen bytes, four for each place where a variable without a register is assigned and for the first move to each phi without one, and the bytes of the local arrays |
| FrameLayout.SlotsKeepTheirWords | src/machine_ir/machine_ir_build.cpp:492-522 | storing one value leaves every byte of every other slot as it was |
| FrameLayout.MachineFunc.ManageParameters | src/machine_ir/machine_ir_build.cpp:149-197 | from every state, the entry code opens the frame, saves the link register, keeps the caller's memory and leaves each parameter where it is looked for unless a later one takes its register |
| FrameLayout.ParametersArriveIff | src/machine_ir/machine_ir_build.cpp:152-180 | all parameters arrive in every state exactly when no parameter dealt with later has the same register |
| FrameLayout.FirstOfTwoIsLost | src/machine_ir/machine_ir_build.cpp:165-181 | with two parameters in R4, the first one reads as the second after the entry code |
| FrameLayout.MachineFunc.GenAlloc | src/machine_ir/machine_ir_build.cpp:1077-1081 | an array takes its bytes at the mark, away from all other slots |
| FrameLayout.MachineFunc.Store2Memory | src/machine_ir/machine_ir_build.cpp:492-522 | a value takes one word the first time and the same word afterwards; the code stores there and nowhere else |
| FrameLayout.MachineFunc.GenBlocks | src/machine_ir/machine_ir_build.cpp:285-347 | over the whole code generation the mark stays below the saved link register and every instruction has the room it needs |
| FrameLayout.BuildFrame | src/machine_ir/machine_ir_build.cpp:133-206 | the frame has the size computed on the IR and the saved link register's word, and that suffices: slots apart from each other and clear of the saved link register |
| CallProtocol.LoadVal2Reg | src/machine_ir/machine_ir_build.cpp:446-490 | the register gets the value although the stack pointer has moved by the compensation; large offsets go through the scratch register |
| CallProtocol.PassArguments | src/machine_ir/machine_ir_build.cpp:745-800 | from every state: context saved, arguments from the fifth pushed so that the lowest is at the stack pointer, the first four in R0 to R3, the caller's memory kept; exactly the temporaries of the first four are released |
| CallProtocol.ArgumentsArriveIff | src/machine_ir/machine_ir_build.cpp:759-800 | every argument arrives in every state exactly when none sits in a register that a later argument passes through |
| CallProtocol.CompiledArgumentsArrive | src/ir/ir_build.cpp:453-465 | under the front end's rule for arguments none is overwritten |
| CallProtocol.SavedRegisters | src/machine_ir/machine_ir_build.cpp:720-753 | the list is ascending and holds exactly the temporaries in use and the registers of values alive |
| CallProtocol.FetchResult | src/machine_ir/machine_ir_build.cpp:820-873 | the saved registers are restored and the result survives: through the word under the stack pointer when R0 itself is restored, else directly |
| CallProtocol.GenInvoke | src/machine_ir/machine_ir_build.cpp:716-874 | the two halves together for one call: an int result reaches the variable's register or slot or the temporary in every state, all other saved registers are restored and all other registers and words kept; a callee without result leaves everything restored |
| CallProtocol.RestoredIff | src/machine_ir/machine_ir_build.cpp:840-872 | every register needed after the call is restored in every state, exactly unless an int result goes unused while R1 is needed |
| CallProtocol.UnusedResultOverwrites | src/machine_ir/machine_ir_build.cpp:849-871 | with R0 and R1 saved and the result unused, R1 ends up with the result |
| CallProtocol.GenRetIns | src/machine_ir/machine_ir_build.cpp:653-704 | from every state the frame and the pushed arguments are released, control goes to the saved link register and the value is in R0 |
| CallProtocol.CallRoundTrip | src/machine_ir/machine_ir_build.cpp:149-874 | callee parameter i is what was delivered for argument i; control returns; the stack pointer, the saved registers and the caller's frame are as before; the result is at its destination |
| CallProtocol.CallDeliversArguments | src/machine_ir/machine_ir_build.cpp:149-800 | under the front end's rule for arguments, callee parameter i holds the value caller argument i had before the call |
| CallProtocol.BodyKeepsFrame | src/machine_ir/machine_ir_build.cpp:716-874 | a body made of stores to its slots and through pointers and of calls, to any depth, gets its stack pointer back and keeps its frame from the saved link register up |
| CallProtocol.NestedCallReturns | src/machine_ir/machine_ir_build.cpp:716-874 | so such a call comes back with nothing assumed of the callee's body: control, stack pointer, saved registers, result and the caller's frame |
| LiteralPools.PoolPlacer.GenGlobIns | src/machine_ir/machine_ir_build.cpp:1293-1337 | the pool defines each pending literal and each global at one place of the stream and nothing else, every load so far finds its label, and the branch over the pool lands behind it |
| LiteralPools.PoolPlacer.PlacePools | src/machine_ir/machine_ir_build.cpp:216-271 | for any instruction stream: every load's label is defined exactly once, in the next pool, which begins fewer than 800 instructions on; every branch over a pool lands after it; the code between pools is the code given; there is no more than one pool for each 800 items, besides the last; without the machine optimisations each block ends with a pool of its own, which resolves what the block loads |
| LiteralPools.WithinOffsetIff | src/machine_ir/machine_ir_build.cpp:243-248 | a literal is within the twelve-bit offset of its load exactly when the instructions to the pool and the pool's words up to it make up 1024 at most |
| LiteralPools.WithinOffset | src/machine_ir/machine_ir_build.cpp:243-248 | so the first 225 literals of a pool are always reached |
| LiteralPools.CrowdedIsTooFar | src/machine_ir/machine_ir_build.cpp:216-271 | 300 loads and 500 more instructions before a pool of 300: the distance kept to the pool is kept, and the first load cannot reach its literal |

## Left out

- MachineOptimize.DivOptimization: the divisor 0, for which the search is undefined; negating -2^31 wraps around, in multiplication too.
- MachineOptUtil.CalDivMagicNumber: `ceil(log2(x))` is the exact integer; its evaluation in floating point is not modelled.
- MachineOptimize: running out of temporary registers, and addressing a slot further away than 4095 bytes, are not modelled for division and multiplication.
- MotionPass.MotionPass.LoopInvariantMotion: all blocks are reachable, and a header is listed before those of the loops in its loop, as `IrBuild.FunctionBuilder.FunctionToIr` lists what it builds; the source hoists from every loop before it wires the first new block, here each loop is wired at once; giving up the uses of a removed phi outside the construction is bookkeeping that is not modelled.
- LoopInvariantMotion and LocalCse: the change of result type from temporary to variable, which concerns later code generation.
- LocalCse.EqualsSound: the recursion of the comparison is bounded by a depth that may be any number, which the source bounds by the depth of the expressions.
- PhiElimination.EliminationRefines: no phi operand is the comparison that ends a predecessor, which SysY cannot produce.
- SsaBuilding.SsaBuilder.ReadLocalVariable: after a removal that was not safe nothing is promised about values, although some orders of users still give the right one; the sets of users are everything that mentions the value; reads as the statement lowering makes and seals them are not joined with `IrBuild`.
- SsaCollapse.GoneExactly: a phi visited again after its removal that has no operand but itself would make one more undefined value in the source; here it is the same one.
- ConflictGraph: all blocks are reachable, blocks end with an instruction without result, the entry has no predecessor; the wall-clock limit and the debug output are left out.
- RegisterAlloc.RegisterAlloc: a value that is never used has no live range; `ConflictGraph.UnusedConflictIff` says that it is kept apart from exactly the values alive in the whole block of its definition, so only dead-code elimination keeps such a definition from overwriting a value alive across it.
- Lowering: expressions and assignments are actions with arbitrary effects on an arbitrary state; break and continue occur inside loops only; sealing of blocks and loop depths are not part of this model.
- Arrays: dimensions are positive and braces nested to one depth; the size of an array is not wrapped to 32 bits; the first dimension is not looked at when indexing, as in the source.
- LiteralPools: a label is its literal and pool number, not its text, so the parsing of the most negative number back from its label is not modelled; names of globals are distinct; an instruction is one word.
- CallProtocol: calls of the runtime library, which does not pop stacked arguments; the constant moved to R0 for the timers; addresses do not wrap around.
- CallProtocol.FetchResult: which temporary the pool hands out is a parameter.
- FrameLayout.MachineFunc.GenInstruction: only the store at the end of an instruction's code is generated; the registers are parameters.
- The machine peepholes, array folding and lifting, constant folding, function inlining and the rewriting of conditions and loops on the syntax tree.
- Lexer, parser, symbol table, assembly text, debug dumps and the runtime library.
