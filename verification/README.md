# Cardinal: verified models of the compiler's and the runtime's hard parts

Cardinal is a self-hosting compiler with a garbage-collected runtime. This Dafny
project models five parts of it and proves what each is for.

- **Lowering** (`compiler/lower.cardinal`, `compiler/ir.cardinal`) against the
  tree-walking interpreter (`bootstrap/interpreter.py`). `Interp.dfy` is the
  interpreter as a fuel-indexed big-step semantics with environments of mutable
  cells; `Machine.dfy` is a program-counter machine with call frames and a heap over
  the block IR. `Lowering.dfy` is the pass as functions on the builder's state;
  `LoweringPass.dfy` and `FuncBuilder.dfy` are the same pass as objects whose cells,
  stacks and block lists are updated in place, proved to compute those functions.
  `Relation.dfy` to `Simulation.dfy` are the simulation, `Theorem.dfy` its result.
  `Typing.dfy` types the annotated tree, `Soundness.dfy` proves that typed runs are
  never refused, and `Progress.dfy` draws the lowering theorem for typed modules.
- **The collector** (`bootstrap/runtime/cardinal_gc.c`): the class in `Collector.dfy`,
  with table, free stack, worklist and roots, against the functions of `GcModel.dfy`;
  `GcProps.dfy` and `GcRuns.dfy` hold what is true of one collection and of every run.
- **Containers and strings** (`bootstrap/runtime/cardinal_rt.c`): vectors and hash
  maps are words on that collected heap (`Containers.dfy`, `MapMemory.dfy`,
  `MapDecode.dfy`, `MapHeap.dfy`), so that any allocation inside an operation may
  collect; strings are byte sequences (`Utf8.dfy`).
- **The x86-64 back end** (`compiler/backend_x86.cardinal`): instruction sequences
  (`X86Code.dfy`, `X86Refine.dfy`), calls (`CallConv.dfy`), layout and frames
  (`Layout.dfy`).
- **Struct ordering and literals** (`StructOrder.dfy`, `Literals.dfy`).

## The lowering theorem

The fragment has the eight integer types, booleans, unit and closures; `let`, `set` of
a name, `if`, `while`, `loop`, counted `for`, `break`, `continue`, `return`, `checked`,
calls, function literals, casts, and all integer, comparison and boolean operators.

`Progress.TypedPreservesMeaning` is the result on syntax alone: in a fine, typed module
whose counted loops step by one and whose shift counts are of unsigned types or
literals, a compiled call returns the same value, panics, or runs forever exactly when
the interpreter's does. `Progress.TypedWraps` drops the condition on loops: compiled
code is then the interpreter with a counter that wraps at the index type, while the
interpreter's own counter is unbounded (`Divergence.LoopThatWraps` is a typed loop by 2
for which the two differ). Behind them, `Theorem.LoweringPreservesMeaning` and
`Theorem.LoweringWraps` ask for a condition on runs in place of typing. The conditions:

- `FineModule`: syntactic conditions that a compiler could check. Names are declared
  before use, functions have distinct names that do not start with a digit, and locals
  do not shadow module functions; parameters are distinct and not of the `name_n`
  shape that `uniq` mints; `break` and `continue` stand in a loop of their function;
  `and`/`or` have an argument; `checked` covers two-operand `+ - *` and holds no cast,
  unary minus, `bnot` or function literal; and a block does not declare a name that an
  earlier (or the same) statement of it mentions inside a function literal.
- `WellCalled`: the arguments are integers in range, booleans or unit, of the
  parameters' types.
- `TypedModule`: operands, bounds, arguments and bodies have the types annotated on the
  tree, and only parameters, loop indices and mutable names are set. The optional part
  asks for steps of one and for shift counts that are plainly not negative.
- `Proper`, for the theorems on runs: no run of the call ends in `Err`, and what it
  returns is an integer, a boolean or unit (closures may be made, stored and called
  inside). `Err` is a type error, a negative shift count or, in a guarded run, an index
  that leaves its type; `Progress.TypedRuns` says that typed runs have no type error, and
  `Progress.TypedProper` what is left of the condition for them.

`Divergence.dfy` has programs just outside these conditions for which compiled code and
interpreter differ: a parameter named `x_1` next to a local `x`, a function literal
inside `checked` (lowering keeps the flag in the lifted body, the interpreter's calls
drop it), and a loop whose last increment leaves the index type.

## Model

| member | source | states |
|---|---|---|
| Progress.TypedPreservesMeaning | compiler/lower.cardinal:2493-2542 | For every fine, typed module whose counted loops step by one and whose shift counts are plainly not negative, and every well-typed call with an integer, boolean or unit result: the compiled call returns a value, aborts or diverges exactly when the interpreter's does, with that value; no condition on runs |
| Progress.TypedWraps | compiler/lower.cardinal:2354-2425 | With steps of any size: the compiled call is the interpreter's with counted loops whose counter wraps at the index type |
| Progress.TypedRuns | bootstrap/interpreter.py:1518-1542 | A run of a typed module, loops counting in any of the three ways and fuel of any amount, never ends in a type error: Err is a negative shift count or a watched index that left its type, and a result has the declared type |
| Progress.TypedProper | bootstrap/interpreter.py:1676-1679 | For a typed module the condition on runs holds if and only if no run meets a negative shift count or a watched index that leaves its type |
| Progress.OnlyMutableIsSet | bootstrap/interpreter.py:1350-1360 | Declaring a name, setting it to the argument and returning it: with a mutable name every run returns the argument, with an immutable one the types and every run refuse |
| Soundness.ExprSound | bootstrap/interpreter.py:1391-1471 | In a well-typed store, a typed expression evaluates to a value of its type, panics or runs out of fuel, but makes no type error; the store stays well typed, cells keep type and mutability |
| Soundness.StmtSound | bootstrap/interpreter.py:1226-1288 | The same of statements: a return carries the declared type, break and continue stay in loops, and what falls through leaves the names the next statement is typed in |
| Soundness.ApplySound | bootstrap/interpreter.py:1518-1542 | The same of calls of any closure or function |
| Soundness.ForSound | bootstrap/interpreter.py:1308-1334 | The same of counted loops; one that steps by one never leaves the index type |
| Soundness.AssignSound | bootstrap/interpreter.py:1350-1360 | Setting a mutable name to a value of its type succeeds and changes that cell only |
| Soundness.SetExact | bootstrap/interpreter.py:1350-1360 | A typed `set` whose value is computed succeeds if and only if the name is mutable, and is refused if and only if it is not |
| Soundness.ConstSetFails | bootstrap/interpreter.py:1356-1358 | A block that declares an immutable name and then sets it never completes; if both values are computed it is refused |
| Theorem.LoweringPreservesMeaning | compiler/lower.cardinal:2493-2542 | For every module of the fragment within FineModule, and every call of which no run errs or takes an index out of its type (Progress.TypedProper says when): the compiled call returns a value, aborts or diverges exactly when the interpreter's call does, with that value |
| Theorem.LoweringWraps | compiler/lower.cardinal:2354-2425 | Without the condition on indices: the compiled call is the interpreter's with counted loops whose counter wraps at the index type |
| Theorem.Simulates | bootstrap/interpreter.py:1518-1542 | At every amount of fuel: the machine halts with the value, panics, or is still running after at least that many steps, as the interpreter returned, panicked or ran out |
| Theorem.Settles | bootstrap/interpreter.py:1518-1542 | A machine at rest after k steps: with fuel k + 1 the interpreter has come to the same end |
| Guards.ApplyGuard | bootstrap/interpreter.py:1308-1334 | A run that never takes a loop index out of its type is the same whether the counter is unbounded, wraps or is watched |
| Simulation.SimStmt | compiler/lower.cardinal:2115-2191 | From related states, the lowered statement reaches the interpreter's outcome (fall through, break, continue, return, panic) in related states, at the label or return that outcome means |
| Simulation.SimStmts | compiler/lower.cardinal:2107-2113 | The same of a block, whose declarations end with it |
| Simulation.SimExpr | compiler/lower.cardinal:760-845 | From related states, the lowered expression leaves the interpreter's value in the returned operand, keeps every older register, and panics exactly when the interpreter does |
| Simulation.SimOp | compiler/lower.cardinal:1082-1142 | The same of operators: n-ary chains, comparisons, not, unary minus, bnot, lexically checked + - * |
| Simulation.SimAndOr | compiler/lower.cardinal:1144-1164 | and/or evaluate their arguments left to right and stop at the first that decides |
| Simulation.SimIf | compiler/lower.cardinal:2292-2316 | The first branch whose condition holds, or else the else part, and no other, is run |
| Simulation.SimWhile | compiler/lower.cardinal:2318-2336 | Each round tests at the head; continue goes there, break to the end |
| Simulation.SimLoop | compiler/lower.cardinal:2338-2352 | An endless loop is left only by break, return or panic |
| Simulation.SimFor | compiler/lower.cardinal:2354-2425 | Start, bound and step are evaluated once, and each round binds the counter's value afresh, whatever the body assigns to index, bound or step variable |
| Simulation.SimSet | compiler/lower.cardinal:2193-2221 | Assigning a name writes the one cell both sides read, in a local or in a box |
| Simulation.SimApply | bootstrap/interpreter.py:1518-1542 | A call of a closure or function runs its lowered body in a fresh frame and returns to the caller, its registers and unboxed variables unchanged |
| Simulation.SimDirect | compiler/lower.cardinal:1166-1327 | A call of a module function by name |
| Simulation.SimIndirect | compiler/lower.cardinal:1166-1327 | A call of a computed closure |
| Capture.SimFunc | compiler/lower.cardinal:948-1005 | A function literal makes a closure related to the interpreter's: its environment array holds the boxes of exactly the cells its free names resolve to |
| Capture.CapsInBoxes | compiler/lower.cardinal:948-970 | Every name a literal captures is in a box where the literal is evaluated |
| Capture.EnvMade | compiler/lower.cardinal:971-984 | The new environment array refers to the captured cells' boxes by reference, and no cell, box or other environment changes |
| Entry.EnterLambda | compiler/lower.cardinal:1008-1064 | Entering a lifted body: captured names reach the boxes of the defining environment's cells, parameters their arguments |
| Entry.EnterFunc | compiler/lower.cardinal:2493-2542 | Entering a module function: each parameter is in its own local, or in a fresh box if captured |
| Entry.RunMakeBox | compiler/lower.cardinal:442-449 | Two steps make a fresh box holding the value; older registers and heap objects stay |
| Variables.RunBind | compiler/lower.cardinal:2115-2135 | A binding puts the new cell in a box if captured and in a fresh local if not; the other names are where they were |
| CaptureSafe.NeverRefused | compiler/lower.cardinal:948-970 | In every module, dead code included, no captured name lacks a box where a literal is lowered: the "cannot capture" panic is unreachable |
| CaptureSafe.StmtAccepted | compiler/lower.cardinal:741-754 | Lowering a statement never reaches that panic, and keeps every captured name in scope boxed, if the names its literals use are in the captured set |
| Restrict.LambdaScopeSuffices | compiler/lower.cardinal:606-621 | A literal's body is well scoped with only its parameters and the free names the analysis finds |
| Restrict.LambdaFreeDisjoint | compiler/lower.cardinal:606-621 | The free names of a literal are none of its parameters |
| Cfg.ModuleWellFormed | compiler/ir.cardinal:126-140 | Every lowered function, lifted ones included: each block is non-empty and has exactly one terminator, at its end; every target is a label of the function; labels, temps and locals are pairwise distinct |
| Cfg.StmtKeeps | compiler/ir.cardinal:217-243 | Lowering any statement keeps the unfinished function well formed, also with dead blocks after a terminator and labels not placed yet |
| Growth.StmtGrows | compiler/ir.cardinal:237-243 | Lowering only appends: blocks, instructions, temps, locals and finished functions stay as they are |
| Linking.ModuleNamed | compiler/lower.cardinal:948-1005 | User functions and lifted literals of a module have pairwise distinct symbols |
| Linking.ModuleCode | compiler/lower.cardinal:2579-2714 | Linking a fine module gives every name its own lowered function |
| Names.UniqInjective | compiler/lower.cardinal:106-109 | Two minted names are equal only if base and counter are |
| Names.LambdaNotUser | compiler/lower.cardinal:948-1005 | No lifted literal has the symbol of a user function |
| Names.SortedNames | compiler/lower.cardinal:941-943 | The set's members, each once, in strictly increasing order |
| Numeric.FoldWrapsOnce | compiler/lower.cardinal:1131-1141 | A left fold of + - * that wraps at every step equals the fold in unbounded integers wrapped once, for every width, signedness and argument list |
| Numeric.WrapFits | bootstrap/interpreter.py:1732-1742 | Wrapping lands in the type's range on a congruent value and changes nothing in range |
| Numeric.Ranges | bootstrap/interpreter.py:1732-1742 | A type of n bits holds -2^(n-1) to 2^(n-1) - 1 if signed and 0 to 2^n - 1 if not |
| Numeric.TruncExact | bootstrap/interpreter.py:1653-1668 | Quotient and remainder are the only pair with a = q * b + r, r smaller than b in absolute value, and r zero or of the sign of a |
| CountedLoop.SameIndices | bootstrap/interpreter.py:1308-1334 | For step at least 1: the wrapping counter gives the interpreter's index values and then ends if and only if the last index plus the step stays within the index type |
| CountedLoop.BindsIndices | bootstrap/interpreter.py:1308-1334 | The interpreter's loop binds a prefix of the arithmetic sequence, and all of it if it is not left early |
| CountedLoop.BindsCounter | compiler/lower.cardinal:2354-2425 | The wrapping loop binds, in round k, the start plus k steps taken modulo the index type |
| CountedLoop.StepOne | compiler/lower.cardinal:2354-2425 | With step 1 the compiled loop always ends after exactly the interpreter's rounds |
| Divergence.LoopThatWraps | bootstrap/interpreter.py:1322-1333 | `for` over u8 from 0 to 255 by 2: the interpreter returns, the compiled function runs forever |
| Divergence.ParameterClash | compiler/lower.cardinal:106-109 | A parameter x_1 and a local x: the compiled function returns the local, the interpreter the parameter |
| Divergence.LiteralInChecked | compiler/lower.cardinal:1008-1064 | A function literal inside `checked`: the interpreter wraps in its body, the compiled body panics |
| LoweringPass.Lowerer.LowerModule | compiler/lower.cardinal:2579-2714 | The pass in its own form appends exactly the functions Lowering.LowerModule gives, and is never refused |
| LoweringPass.Lowerer.LowerStmt | compiler/lower.cardinal:2115-2191 | The in-place pass computes the lowering function's state and scope, and restores the checked flag and the loop stacks |
| LoweringPass.Lowerer.LowerExpr | compiler/lower.cardinal:760-845 | The same for expressions |
| LoweringPass.Lowerer.LowerLambdaBody | compiler/lower.cardinal:1008-1064 | A literal's body is lowered in a builder and counter of its own; the enclosing ones come back unchanged |
| LoweringPass.Lowerer.LowerFornum | compiler/lower.cardinal:2354-2425 | The in-place lowering of a counted loop |
| LoweringPass.Lowerer.LowerAndOr | compiler/lower.cardinal:1144-1164 | The in-place lowering of and/or, a loop over the arguments |
| Builders.FuncBuilder.Emit | compiler/ir.cardinal:237-243 | Appends to the current block, or to a fresh one if that has ended |
| Builders.FuncBuilder.NewBlock | compiler/ir.cardinal:222-225 | Appends an empty block and makes it current |
| Builders.FuncBuilder.FreshTemp | compiler/ir.cardinal:204-210 | A temp with the next number, recorded |
| GcProps.CollectExact | bootstrap/runtime/cardinal_gc.c:184-222 | After a collection exactly the reachable slots are in use, with their words and generations; every other used slot is freed; a word is a good handle afterwards if and only if it was one of a reachable object |
| GcProps.CollectReach | bootstrap/runtime/cardinal_gc.c:184-222 | What is reachable is the same before and after |
| GcProps.CollectTwice | bootstrap/runtime/cardinal_gc.c:184-222 | A second collection frees nothing |
| GcProps.CollectInv | bootstrap/runtime/cardinal_gc.c:203-214 | The free stack stays duplicate-free and exactly the unused slots above 0; counters stay the sums over used slots |
| GcProps.AllocFresh | bootstrap/runtime/cardinal_gc.c:132-158 | Allocation returns a handle that is good, of a zeroed object that nothing could reach, and no handle of a live object; no other object changes |
| GcProps.LiveHandlesDiffer | bootstrap/runtime/cardinal_gc.c:14-26 | Two live objects never share a handle |
| Collectors.Collector.CollectNow | bootstrap/runtime/cardinal_gc.c:184-222 | The mark loop with its worklist, and the sweep, end in exactly the collection the model specifies, having scanned the bytes of the survivors |
| Collectors.Collector.Trace | bootstrap/runtime/cardinal_gc.c:184-202 | The worklist runs empty with every reachable object marked and no other; each object enters it at most once, which is also its termination |
| Collectors.Collector.ScanRange | bootstrap/runtime/cardinal_gc.c:160-182 | Every word that is a good handle has its object marked, and newly marked objects are on the worklist |
| Collectors.Collector.Sweep | bootstrap/runtime/cardinal_gc.c:203-214 | Unmarked objects are freed, their slots pushed on the free stack and their generations bumped |
| Collectors.Collector.Allocate | bootstrap/runtime/cardinal_gc.c:145-158 | Collects first when enough was allocated since; then a slot from the free stack or a doubled table |
| Collectors.Collector.AllocSlot | bootstrap/runtime/cardinal_gc.c:132-143 | Pops a free slot, or doubles the table and keeps the other new slots for later |
| Collectors.Collector.ValidHandle | bootstrap/runtime/cardinal_gc.c:105-112 | A word is a handle if its tag, index, use and generation all agree |
| Handles.HandlesDiffer | bootstrap/runtime/cardinal_gc.c:14-19 | Packing of generation and index into a word is injective |
| GcRuns.RunsAreSound | bootstrap/runtime/cardinal_gc.c:105-158 | In every run of alloc, collect, store and root operations: free stack exact and duplicate-free, counters exact, no two live handles equal |
| GcRuns.StaleUntilWrap | bootstrap/runtime/cardinal_gc.c:114-130 | A good handle is good again later if and only if its slot is in use and has been freed a multiple of 65536 times since |
| GcRuns.FreedIsRejected | bootstrap/runtime/cardinal_gc.c:114-121 | Freed, and fewer than 65536 times: dereferencing is rejected, however the slot is reused |
| GcRuns.CollectingIsCheap | bootstrap/runtime/cardinal_gc.c:145-156 | With only automatic collections, twice the bytes of survivors scanned is at most three times the bytes allocated, from any threshold |
| GcRuns.HeapIsBounded | bootstrap/runtime/cardinal_gc.c:145-156 | In automatic runs the bytes in use never exceed the last survivors, plus the larger of the floor and twice the last survivors, plus the last request; the threshold is that larger one |
| GcMutate.AllocFrame | bootstrap/runtime/cardinal_gc.c:145-158 | An allocation, with the collection it may start, leaves every reachable object untouched and reachable |
| Containers.GrowIfNeeded | bootstrap/runtime/cardinal_rt.c:118-128 | A full vector doubles, an empty one gets room for four, and the elements are the same after growing, though the allocation may collect, if the header is reachable |
| Containers.Push | bootstrap/runtime/cardinal_rt.c:130-135 | The elements are the old ones and the new one; everything else reachable is untouched |
| Containers.OwnedAnchored | bootstrap/runtime/cardinal_rt.c:118-135 | If only the header refers to the buffer, being reachable is all a vector needs |
| MapHeap.MapSet | bootstrap/runtime/cardinal_rt.c:303-340 | The map stands for the dictionary with the key put, whatever its rehash or growth collected; everything the roots or the live records lead to past the map's own objects is untouched |
| MapHeap.MapDel | bootstrap/runtime/cardinal_rt.c:342-363 | The map stands for the dictionary with the key removed |
| MapHeap.MapGet | bootstrap/runtime/cardinal_rt.c:296-301 | The dictionary's value, or nothing where the source panics |
| MapHeap.MapHas | bootstrap/runtime/cardinal_rt.c:291-294 | Whether the dictionary has the key |
| MapHeap.MapLen | bootstrap/runtime/cardinal_rt.c:289-289 | The dictionary's size |
| MapHeap.MapNew | bootstrap/runtime/cardinal_rt.c:279-287 | A map that stands for the empty dictionary |
| MapHeap.MapKeyList | bootstrap/runtime/cardinal_rt.c:365-378 | A new vector of the dictionary's keys in its order, though any push may collect; nothing reachable changes |
| MapHeap.MapFind | bootstrap/runtime/cardinal_rt.c:216-233 | Probing finds the live record with the key and its index slot, or there is none |
| MapHeap.PutSlot | bootstrap/runtime/cardinal_rt.c:237-243 | Probing always meets a slot not in use, and with the record's number there every live record can still be found |
| MapHeap.Rehash | bootstrap/runtime/cardinal_rt.c:247-277 | Two allocations in a row leave the compacted records, each found in a fresh index of the size asked for |
| MapHeap.GrowEntries | bootstrap/runtime/cardinal_rt.c:319-328 | The records and the index read as before in a buffer twice the size |
| MapHeap.MakeRoom | bootstrap/runtime/cardinal_rt.c:313-328 | Afterwards there is room in the entries, the load stays below 0.7 with one more entry, and the dictionary is the same; no 64-bit product in the tests wraps |
| MapHeap.OwnedLed | bootstrap/runtime/cardinal_rt.c:303-340 | If only the header refers to the entries and the index, being reachable is all a map needs |
| MapDecode.DecodedCompact | bootstrap/runtime/cardinal_rt.c:250-264 | Copying the live records compacts the entries and keeps their order |
| MapDecode.TextBack | bootstrap/runtime/cardinal_rt.c:29-33 | A string object of a length and bytes packed eight to a word, low byte first, has exactly those bytes as its text |
| MapDecode.KeysByText | bootstrap/runtime/cardinal_rt.c:200-210 | Two string keys are the same key if and only if their bytes are, whichever objects hold them |
| HashMaps.PutKeeps | bootstrap/runtime/cardinal_rt.c:237-243 | Filling the first slot not in use keeps every probe path unbroken |
| HashMaps.DelKeeps | bootstrap/runtime/cardinal_rt.c:342-363 | So does a tombstone |
| HashMaps.NotFound | bootstrap/runtime/cardinal_rt.c:216-233 | A search that met an empty slot or every slot missed no live record |
| HashMaps.FreeSlot | bootstrap/runtime/cardinal_rt.c:237-243 | With fewer live records than slots, some slot is not in use |
| Words64.MaskIsRemainder | bootstrap/runtime/cardinal_rt.c:216-243 | Masking with a power of two less one is taking the remainder |
| OrderedDict.PutOrder | bootstrap/interpreter.py:1371-1374 | Overwriting keeps every position; a new key goes last |
| OrderedDict.PutGet | bootstrap/interpreter.py:1371-1374 | What a lookup gives after a put, for every key |
| OrderedDict.RemovePutLast | bootstrap/interpreter.py:2208-2217 | Deleting a key and putting it again moves it to the end |
| Utf8.RoundTrip | bootstrap/runtime/cardinal_rt.c:390-429 | Decoding an encoded sequence of Unicode scalar values (RFC 3629, section 3) gives it back |
| Utf8.Shortest | bootstrap/runtime/cardinal_rt.c:390-429 | No sequence of bytes shorter than its encoding decodes to a codepoint: the encoding is the shortest form of RFC 3629, section 3 |
| Utf8.StrLen | bootstrap/runtime/cardinal_rt.c:53-60 | The number of codepoints |
| Utf8.Concat | bootstrap/runtime/cardinal_rt.c:431-440 | Appends the codepoints |
| Utf8.Equal | bootstrap/runtime/cardinal_rt.c:487-492 | Equality of bytes is equality of codepoints |
| Utf8.Chars | bootstrap/runtime/cardinal_rt.c:467-479 | The codepoints |
| Utf8.Substr | bootstrap/runtime/cardinal_rt.c:442-465 | The clamped codepoint slice, also when start + count overflows 64 bits |
| X86Refine.BinRefines | compiler/backend_x86.cardinal:1008-1146 | From operands extended in their registers: the wrapped result, extended again, or the panic, as the IR says, for + - * / % band bor bxor shl shr and comparisons at all eight types, with MIN / -1 and shifts past the width; checked + - * trap exactly on overflow below 64 bits |
| X86Refine.Checked64 | compiler/backend_x86.cardinal:1131-1140 | At 64 bits the overflow test never fires: it agrees with the IR if and only if the result is in range |
| X86Refine.UnRefines | compiler/backend_x86.cardinal:1148-1184 | Unary minus, bnot and integer casts leave the wrapped result, extended |
| X86Refine.NotRefines | compiler/backend_x86.cardinal:1148-1184 | Boolean not |
| Words64.ExtendWraps | compiler/backend_x86.cardinal:434-455 | Sign or zero extension of a raw 64-bit result is the wrapped value, extended |
| Words64.OrAndXor | bootstrap/interpreter.py:1670-1684 | bor plus band is the sum, and bxor plus twice band is too, for all integers |
| CallConv.CallReaches | compiler/backend_x86.cardinal:1246-1363 | For every signature: each word of each argument, and the hidden result pointer, reaches its slot in the callee's frame |
| CallConv.ClosureCallReaches | compiler/backend_x86.cardinal:2620-2740 | The same with the environment as first integer argument |
| CallConv.ThunkReaches | compiler/backend_x86.cardinal:1428-1454 | A closure call through a thunk reaches the function's own prologue |
| CallConv.ThunkHiddenExact | compiler/backend_x86.cardinal:1399-1454 | Through a thunk the hidden result pointer survives, whatever the registers hold, if and only if the result is no array or there is nothing to shift |
| CallConv.ParkArgs | compiler/backend_x86.cardinal:1246-1316 | Parked words never pass the 14-word scratch area, and each argument is classified as the prologue will classify it |
| CallConv.AlignedAtCall | compiler/backend_x86.cardinal:1246-1363 | The stack pointer is a multiple of 16 at every call |
| Layout.FieldsDisjoint | compiler/backend_x86.cardinal:667-702 | Fields lie in order, do not overlap and stay inside the struct |
| Layout.FieldAligned | compiler/backend_x86.cardinal:653-702 | Every offset is a multiple of the field's alignment |
| Layout.NestedSound | compiler/backend_x86.cardinal:635-702 | Also through any depth of nesting |
| Layout.SizeAligned | compiler/backend_x86.cardinal:503-572 | A type's size is a multiple of its alignment |
| Layout.Sizes | compiler/backend_x86.cardinal:503-572 | In bytes: a scalar has its own size and alignment; arrays are three words, closures two, each aligned to 8; a struct takes the largest alignment of its fields, and 1 if it has none |
| Layout.FieldBytes | compiler/backend_x86.cardinal:653-702 | In any struct that starts at a multiple of 8, a scalar field of b bytes stands at a multiple of b and any other that is no struct at a multiple of 8, and the struct's size is such a multiple too |
| Layout.NoWaste | compiler/backend_x86.cardinal:667-702 | The first field is at 0, and the gap before a field, or after the last, is less than its alignment |
| Layout.StructSize | compiler/backend_x86.cardinal:667-681 | The loop computes that size |
| Layout.FieldOffset | compiler/backend_x86.cardinal:684-702 | The loop computes that offset |
| Layout.LayFrame | compiler/backend_x86.cardinal:2759-2816 | Parameter, temp and local slots in order, the scratch area and the hidden pointer below them |
| Layout.FrameSound | compiler/backend_x86.cardinal:2751-2816 | Slots, scratch area and hidden pointer are apart and inside a frame that is a multiple of 16 |
| Layout.SlotsDisjoint | compiler/backend_x86.cardinal:2759-2816 | No two slots overlap |
| StructOrder.OrderStructs | compiler/backend_c.cardinal:1283-1298 | On any graph it ends with each struct exactly once; on an acyclic one each comes after those it embeds |
| StructOrder.Orderer.Visit | compiler/backend_c.cardinal:1267-1281 | The depth-first step behind it, with what is under way |
| Literals.ScanDigits | compiler/lexer.cardinal:258-358 | The overflow flag is set if and only if the digits' value exceeds 2^64 - 1; otherwise the stored i64 read as u64 is that value |
| Literals.OverflowExact | compiler/lexer.cardinal:110-116 | The test before each digit is exact |
| Literals.NumeralRead | compiler/lexer.cardinal:93-104 | Reading back a numeral in base 2, 8, 10 or 16, in lower or upper case, gives the number it was written for |
| Literals.DecimalRead | compiler/lexer.cardinal:93-104 | So does reading back the decimal spelling of a number |
| Literals.Accept | compiler/checker.cardinal:447-476 | A literal is accepted for a type if and only if its value is at most the type's maximum |

## Left out

- Theorem.LoweringPreservesMeaning: does not cover floats, strings, arrays, structs, sums, match, for-in, inline assembly, module functions used as values, constant inlining, or checked chains of three and more operands, unary minus, bnot, casts and division (interpreter and back ends check those differently); it asks for Proper, which Progress.TypedProper settles for typed modules.
- Theorem.LoweringWraps: leaves out the same constructs, and asks for Proper of the wrapping interpreter.
- Progress.TypedPreservesMeaning: leaves out the same constructs; types are read from the annotated tree, and how the checker infers and annotates them is not modelled.
- Progress.TypedRuns: in the interpreter proper a negative shift count stays possible even with unsigned counts, through a loop index that went below its type.
- Simulation.SimStmt: leaves out match, for-in, and assignment to fields and elements.
- Simulation.SimOp: leaves out float and string operands.
- Simulation.SimDirect: leaves out builtins, methods and calls across modules.
- Simulation.SimIndirect: leaves out the same.
- Divergence.ParameterClash: shows one program; no statement says that every program outside FineModule differs.
- Containers.Push: elements are whole words; elements of 1, 2 or 4 bytes are not modelled. It asks for a way to the header that avoids the buffer, which OwnedAnchored gives from reachability.
- MapHeap.MapSet: keys and values are whole words, string keys go by their bytes, and the hash is any function of the key's content; it asks for a way to the header that avoids the map's buffers (OwnedLed) and for buffer sizes below 2^64 bytes.
- Collectors.Collector.Allocate: malloc failure and more than 2^31 live objects are not modelled; objects are sequences of 64-bit words, so the last bytes of an object whose size is no multiple of 8 are not there; counters are unbounded.
- CallConv.CallReaches: arguments of floating type travel as bits; the emission of xmm moves is not modelled.
- Layout.FieldOffset: fields go by position, not by name; a struct name that is not known is not modelled.
- X86Refine.BinRefines: shift counts are not negative; floats and the textual form of instructions are not modelled.
- Literals.ScanDigits: the mantissa of an integer; exponents, fractions and suffixes are not modelled.
- Panic messages, input and output, processes, the parser, the C back end's text and the older Python copies of the lowering passes are not part of this model.
