# Tensor-core operation extraction, modelled in Dafny

This project models Halide's `extract_tensor_core_operations` lowering pass
(`src/ExtractTensorCoreOperations.cpp`). The pass walks a lowered statement.
It rebuilds every node unchanged except loops tagged `ForType::TensorCore`.
For the outermost such loop (the M dimension) it:

1. reads the loop's constant extent;
2. collects every `LetStmt` under the loop into a vector the pass object keeps;
3. requires exactly two loops under it (N and K, in pre-order, not necessarily one inside the other), all TensorCore, with constant extents;
4. requires the 16 x 16 x 16 WMMA tile;
5. takes the last `Store` under the K loop and substitutes the collected lets into it, each name by its last binding in the collected list;
6. matches the stored value against `C + cast(A) * cast(B)`;
7. classifies the address expressions of the loads (the result is unused);
8. replaces the whole nest by the undefined statement `Stmt{}`. Whenever C's address fits its template, line 343 is only reached past undefined behaviour at line 341: the classifier runs off its end without a return. The model keeps that as the unused value `NoReturnValue`.

Every failed `internal_assert` is a `PassError` value in the model. Undefined
behaviour in the code is a value too: a null store pointer, dereferenced at
line 327, and the classifier that falls off its end without a `return`.

Files, one module each (the option type lives beside the IR):

- `Ir.dfy`: the IR fragment the pass touches (`Expr`, `Stmt`, `Loop`, `StoreNode`, `Binding`).
- `IrMatch.dfy`: `expr_match`, with `*`-named variables as wildcards bound left to right.
- `Walkers.dfy`: the three visitors, as classes proved against pure pre-order walks.
- `ReplaceVars.dfy`: the let-substituting mutator, including the case where it never finishes.
- `Shape.dfy`: `get_wmma_layout` and `get_const_extent`.
- `MatrixLoads.dfy`: `extract_matrix_loads` and the layout classifiers.
- `TensorCorePass.dfy`: the pass object, its `visit(const For*)` and the whole-tree mutation.
- `Scenarios.dfy`: the pass on hand-built nests in the shape of the update at line 32 of `test/correctness/cuda_wmma.cpp`.

Where the code departs from what the pass evidently aims at, the model follows the code:

- The pass does not fail on a layout it cannot classify. The classification at line 341 is computed and discarded.
- A recognised nest is deleted (`return Stmt{}`), not rewritten into WMMA calls.
- The lets vector is never cleared between nests.

## Model

| member | source | states |
|---|---|---|
| IrMatch.Match | src/ExtractTensorCoreOperations.cpp:151 | a successful match returns one binding per wildcard, and putting them back into the template gives the matched expression |
| IrMatch.MatchComplete | src/ExtractTensorCoreOperations.cpp:151 | every instance of a template matches, and returns exactly the subterms it was built from |
| IrMatch.MatchIffInstance | src/ExtractTensorCoreOperations.cpp:151 | matching succeeds if and only if the expression is an instance of the template |
| Shape.GetWmmaLayout | src/ExtractTensorCoreOperations.cpp:18-27 | the tile is m16n16k16 exactly when M, N and K are all 16, and unknown for every other shape |
| Shape.ConstExtent | src/ExtractTensorCoreOperations.cpp:73-77 | an extent exists exactly when the loop starts at constant 0 and has a constant extent, and it is that constant |
| Walkers.LeadingTensorCoreWhole | src/ExtractTensorCoreOperations.cpp:38-41 | the loops pushed before the first non-TensorCore loop are all loops exactly when every loop is TensorCore, and strictly fewer otherwise |
| Walkers.LeadingTensorCoreAppend | src/ExtractTensorCoreOperations.cpp:38-41 | the pushes over two subtrees visited in order are those of the first, then (if it had no non-TensorCore loop) those of the second |
| Walkers.CollectForTC.Visit | src/ExtractTensorCoreOperations.cpp:29-43 | the traversal succeeds exactly when every loop is TensorCore; the field gains the TensorCore loops met, in pre-order, before the first offending loop |
| Walkers.CollectForTC.VisitFor | src/ExtractTensorCoreOperations.cpp:38-42 | the same for one loop: it must be TensorCore, is pushed, and then its body is visited |
| Walkers.AllTensorCoreAppend | src/ExtractTensorCoreOperations.cpp:38-41 | two subtrees visited in order pass the loop-type assert exactly when each does |
| Walkers.CollectTensorCoreFors | src/ExtractTensorCoreOperations.cpp:45-49 | success iff every loop is TensorCore; then the result is all loops in pre-order, otherwise a strictly shorter prefix |
| Walkers.CollectLetStmts.Visit | src/ExtractTensorCoreOperations.cpp:62-65 | the caller's vector gains every LetStmt of the tree, in visiting order, after what it held |
| Walkers.CollectLets | src/ExtractTensorCoreOperations.cpp:68-71 | appends the lets of the tree after the lets already held, dropping none |
| Walkers.ExtractStore.Visit | src/ExtractTensorCoreOperations.cpp:87-90 | the pointer ends at the last store visited, and is untouched when the tree has no store |
| Walkers.FindStore | src/ExtractTensorCoreOperations.cpp:320-324 | a value-initialised visitor's pointer stays null exactly when the tree holds no store; otherwise it is a store of the tree, the last one |
| ReplaceVars.FindLet | src/ExtractTensorCoreOperations.cpp:102-112 | the result is a binding of the name with no later binding of it; none exactly when no binding has the name |
| ReplaceVars.ResolveStore | src/ExtractTensorCoreOperations.cpp:330-331 | the store handed to `extract_matrix_loads` mentions no name any let binds in its value or its index; it always exists when the lets only refer outward; with no lets it is the store found |
| ReplaceVars.ResolveVar | src/ExtractTensorCoreOperations.cpp:114-122 | `Resolve` (the mutator) keeps an unbound variable, and turns a bound one into exactly `Resolve` of the value of the name's last binding among the collected lets (pre-order over the whole M loop, after those of earlier nests), as `mutate(let->value)` does |
| ReplaceVars.ResolveFromMonotone | src/ExtractTensorCoreOperations.cpp:114-122 | `ResolveFrom` (the mutator with the lets being substituted on the way down as a path): a finished run gives the same result with fewer lets on the path |
| ReplaceVars.ResolveFromReentry | src/ExtractTensorCoreOperations.cpp:114-122 | if a let's value never finishes substituting with that let on the path, taking the let off the path does not make any run finish |
| ReplaceVars.ResolveFinished | src/ExtractTensorCoreOperations.cpp:114-122 | for `Resolve`: a finished result mentions no bound name, outward-only lets always finish, and no lets is the identity |
| ReplaceVars.ResolveUnboundIsIdentity | src/ExtractTensorCoreOperations.cpp:114-122 | an expression mentioning no bound name is returned unchanged |
| ReplaceVars.ResolveWithoutLets | src/ExtractTensorCoreOperations.cpp:114-122 | with no lets the mutator is the identity |
| ReplaceVars.ResolvedIsUnbound | src/ExtractTensorCoreOperations.cpp:114-122 | a finished `ResolveFrom` mentions no name any let binds |
| ReplaceVars.ResolveIdempotent | src/ExtractTensorCoreOperations.cpp:114-122 | substituting an already substituted expression changes nothing |
| ReplaceVars.ResolveFromTerminates | src/ExtractTensorCoreOperations.cpp:114-122 | the recursion finishes when each let only refers to names bound further out |
| ReplaceVars.ResolveTerminates | src/ExtractTensorCoreOperations.cpp:114-122 | lets that only refer outward are always fully substituted |
| ReplaceVars.SelfShadowingDiverges | src/ExtractTensorCoreOperations.cpp:114-122 | `let x = 1; let x = x + 1` makes the mutator call itself forever on `x` |
| MatrixLoads.AsLoad | src/ExtractTensorCoreOperations.cpp:251-260 | the cast to Load succeeds exactly on load nodes and returns that load's buffer and index |
| MatrixLoads.AccumulatePatternShape | src/ExtractTensorCoreOperations.cpp:228-235 | the instances of `* + * * *` are exactly the sums whose right operand is a product |
| MatrixLoads.ExtractMatrixLoads | src/ExtractTensorCoreOperations.cpp:223-267 | the empty record for a value that is not a sum of a product or has a non-cast factor, the summand and cast operands otherwise; the record's `Truthy` (its `operator bool`, lines 137-139: all four pointers set) holds exactly when the value is C + cast(A) * cast(B) with all three loads |
| MatrixLoads.RowAndColumnTemplatesDisjoint | src/ExtractTensorCoreOperations.cpp:149-177 | no address matches both the row-major and the column-major template of A, or of B |
| MatrixLoads.IdentifyLoadA | src/ExtractTensorCoreOperations.cpp:142-161 | 0 exactly for row-major addresses, 1 exactly for column-major ones that are not row-major, -1 for the rest |
| MatrixLoads.IdentifyLoadB | src/ExtractTensorCoreOperations.cpp:163-184 | as written: never 1; 0 exactly for row-major addresses and -1 for every other |
| MatrixLoads.IdentifyLoadBIntended | src/ExtractTensorCoreOperations.cpp:163-184 | with the second test on the column template: 0 row-major, 1 column-major, -1 neither, each an if-and-only-if |
| MatrixLoads.BColumnLoadMisclassified | src/ExtractTensorCoreOperations.cpp:177-183 | every column-major B address is reported invalid as written and column-major as intended |
| MatrixLoads.IdentifyMatrixLoad | src/ExtractTensorCoreOperations.cpp:186-220 | as written: Unknown exactly when C's address misses its template, and no return value at all otherwise |
| MatrixLoads.IdentifyMatrixLoadIntended | src/ExtractTensorCoreOperations.cpp:186-220 | completed: unrecognised exactly when C's address misses its template; otherwise each operand is Row or Col exactly when its address fits that template |
| MatrixLoads.IdentifyMatrixLoadReturnsNothing | src/ExtractTensorCoreOperations.cpp:207-220 | the code as written returns nothing exactly on the inputs the completed classifier classifies |
| MatrixLoads.RowMajorOperandsClassifiedRow | src/ExtractTensorCoreOperations.cpp:197-216 | row-major C, A and B addresses are classified Row, Row whatever the wildcards stand for |
| MatrixLoads.ColumnMajorBClassifiedCol | src/ExtractTensorCoreOperations.cpp:177-181 | a column-major B address is classified Col by the completed classifier |
| TensorCorePass.ExtractTensorCoreOperations.constructor | src/ExtractTensorCoreOperations.cpp:271-282 | no lets, no dimensions, all extents -1 |
| TensorCorePass.ExtractTensorCoreOperations.VisitTensorCore | src/ExtractTensorCoreOperations.cpp:293-344 | the result and the new lets are those of `ExtractNest`, the nest specification (`CheckNest` for the loops and the tile, `CheckStore` for the store); on success the three dimensions are recorded and all extents are 16 |
| TensorCorePass.ExtractTensorCoreOperations.Mutate | src/ExtractTensorCoreOperations.cpp:286-347 | the result and the new lets are those of `Pass`, the whole-tree specification, lets threaded left to right |
| TensorCorePass.Extract | src/ExtractTensorCoreOperations.cpp:351-353 | a fresh pass object: a tree without TensorCore loops comes back unchanged, and a successful result holds no TensorCore loop |
| TensorCorePass.PassWithoutTensorCoreIsIdentity | src/ExtractTensorCoreOperations.cpp:346 | without TensorCore loops `Pass` rebuilds the tree unchanged and collects no lets |
| TensorCorePass.PassLeavesNoTensorCore | src/ExtractTensorCoreOperations.cpp:293-346 | a successful pass leaves no TensorCore loop |
| TensorCorePass.PassIdempotent | src/ExtractTensorCoreOperations.cpp:286-347 | running the pass on its own output changes nothing, whatever lets it holds |
| TensorCorePass.PassKeepsCollectedLets | src/ExtractTensorCoreOperations.cpp:300-304 | the lets held before a mutation are a prefix of those held after: nothing is ever removed |
| TensorCorePass.LetsCarryOverToNextNest | src/ExtractTensorCoreOperations.cpp:300-331 | after an accepted nest, the next nest is substituted against the first nest's lets as well as its own; two accepted nests become two undefined statements |
| TensorCorePass.ExtractNestLets | src/ExtractTensorCoreOperations.cpp:300-304 | a visit that gets past the outer extent appends exactly the lets under the loop; success yields the undefined statement |
| TensorCorePass.NestAcceptedIff | src/ExtractTensorCoreOperations.cpp:293-343 | `ExtractNest` (through `CheckNest` and `CheckStore`) accepts a nest iff it is 16 x 16 x 16 with two TensorCore loops under the M loop (in pre-order, not necessarily one inside the other) and the last store of the second, after substitution, is C + cast(A) * cast(B); acceptance passes the classifier at line 341, whose undefined behaviour is kept as an unused value |
| TensorCorePass.AcceptedNestClassifierReturnsNothing | src/ExtractTensorCoreOperations.cpp:336-343 | on every accepted nest the substituted store yields a truthy record, and the classifier at line 341 returns no value exactly when C's address fits its template |
| TensorCorePass.WrongNestingReported | src/ExtractTensorCoreOperations.cpp:306-307 | `ExtractNest` refuses, in `CheckNest`, other than two loops under the M loop, reporting their count plus one |
| TensorCorePass.UnsupportedShapeReported | src/ExtractTensorCoreOperations.cpp:316-318 | a well-formed nest of any other shape is refused with its three extents |
| Scenarios.WmmaNestIsDropped | src/ExtractTensorCoreOperations.cpp:286-344 | the 16 x 16 x 16 accumulate nest under a GPU block loop is replaced by the undefined statement, and its let stays with the pass; the block loop keeps an undefined body because the `For::make` check on it is not modelled; line 343 is reached past the undefined behaviour at line 341, since C's address here fits its template |
| Scenarios.WmmaNestOperandsRowMajor | src/ExtractTensorCoreOperations.cpp:186-220 | on that nest the completed classifier says Row, Row; the code as written returns no value |
| Scenarios.ColumnMajorBExample | src/ExtractTensorCoreOperations.cpp:177-183 | a concrete column-major B address: -1 as written, 1 as intended |
| Scenarios.MissingKDimensionReportsTwo | src/ExtractTensorCoreOperations.cpp:306-307 | a nest with only an N loop is refused, reporting 2 dimensions |
| Scenarios.EightRowsRefused | src/ExtractTensorCoreOperations.cpp:316-318 | an 8 x 16 x 16 nest is refused as shape M8 N16 K16 |
| Scenarios.SiblingLetWins | src/ExtractTensorCoreOperations.cpp:300-304 | a let in a later sibling branch, which does not scope the store, is the binding the substitution uses |
| Scenarios.SiblingLoopsAccepted | src/ExtractTensorCoreOperations.cpp:306-343 | two sibling TensorCore loops under the M loop are taken as N and K, and the nest is accepted |
| Scenarios.CommutedAccumulateRefused | src/ExtractTensorCoreOperations.cpp:230-235 | `cast(A) * cast(B) + C` is not recognised: the template is order-sensitive |

## Left out

- Console output (`std::cout`, `IRPrinter`, including the printing of GPUBlock loops at lines 287-291) is not modelled: it has no effect on the result.
- `expr_match` is modelled on the expression shapes alone. The types of the wildcards (`Int(32)`, `Float(32)`) and of the matched nodes are not compared, except the target type of a `Cast`.
- Only the IR node kinds the pass inspects are modelled: variables, integer constants, `+`, `*`, casts and loads; `For`, `LetStmt`, `Store` and `Block`. Other nodes, which the pass only rebuilds on its way down (such as the atomic node an `.atomic()` schedule adds, conditionals, allocations, other immediates), are not.
- TensorCorePass.Pass: rebuilding a parent around the undefined `Stmt{}` is kept as a node holding `Undefined`. The checks `Block::make` and `For::make` make on their children are in IR code that is not part of this model.
- TensorCorePass.ExtractTensorCoreOperations.VisitTensorCore: extents are unbounded integers. The narrowing of `get_const_extent`'s 64-bit result to the `int` fields is not modelled.
- TensorCorePass.ExtractTensorCoreOperations.Mutate: does not state the dimension and extent fields, which no later step reads.
- The classification at line 341 is computed and thrown away, as in the code. The lemmas about the classifier hold by themselves.
- The header `src/ExtractTensorCoreOperations.h` only declares the entry point. The JIT build and run in `test/correctness/cuda_wmma.cpp` are not modelled; the `Scenarios` module states its loop nest's fate instead.
- TensorCorePass.ExtractNest: accepts a nest without regard to the classification at line 341. When C's address fits its template, that call runs off the end of a non-void function. The code then has undefined behaviour before reaching `return Stmt{}`, and the model treats it as an unused value (AcceptedNestClassifierReturnsNothing states when).
- The undefined behaviour of dereferencing a null store pointer (line 327) and of the missing return are modelled as explicit values (`None`, `NoReturnValue`), not as arbitrary behaviour.

## Findings

| source | as written | input that shows it | evidently intended | confidence | as-written member | corrected member |
|---|---|---|---|---|---|---|
| src/ExtractTensorCoreOperations.cpp:179 | the second test matches `b_row_pattern` again, so `b_col_pattern` is built and never used and 1 is never returned | B address `ki + (((ji + t) * 8) + ko) * 16` with N loop `ji` and K loop `ki` | test `b_col_pattern` there and return 1 for column-major B | high (not executed) | MatrixLoads.BColumnLoadMisclassified | MatrixLoads.IdentifyLoadBIntended |
| src/ExtractTensorCoreOperations.cpp:211-220 | after C's address matches, the A code and the B row test are computed and dropped, and control reaches the end of a non-void function | any record whose C address fits `n + (((m + *) * C.stride.1) + *)`, such as the nest in Scenarios.WmmaNestOperandsRowMajor | return the layouts of A and B, with Unknown as the fallback | high (not executed) | MatrixLoads.IdentifyMatrixLoadReturnsNothing | MatrixLoads.IdentifyMatrixLoadIntended |
