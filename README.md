# LLVM IR to CIL translation core, in Dafny

AssetRipper's C++ translator compiles C and C++ to LLVM IR and then translates the IR into a .NET assembly. This project models the core of that translation and proves properties of the model:

- **Translated function** (`FunctionContext` of the IR translator):
  - Building it from a source function: the clean name, then one pass that adds the blocks and their instructions, then the instruction lookup, then one label and the control-flow links per block.
  - The data-flow pass, which records loads, stores and accessors.
  - The struct-return test.
  - The naming of functions from mangled and demangled symbols.
- **Instruction node** (`InstructionContext`, both generations): the opcode dispatch that picks a specialised context, and its result, local and lookup members.
- **Basic block**: its construction, in which each source instruction is preceded by the contexts synthesized for the constant expressions among its operands.
- **Lowering of particular instructions**:
  - address computation (`getelementptr`), which walks record fields;
  - integer and floating-point comparisons;
  - `invoke`.
- **Named aggregate**: the clean name of a struct.
- **Runtime intrinsics**: `memcpy`, `memmove`, `memset`, the variadic-list primitives, `terminate` and `_expand`.

Modelling choices:

- Blocks and instructions of a function live in positional arenas. The lookups from source blocks and values are maps to positions.
- Lists that the source mutates are `seq` fields of classes, reassigned by methods whose loops carry invariants.
- Exceptions are the `Exn` tags of `Result` and `Outcome`.
- Opcode tables, the name sanitizer and the demangled-name parser are called but are not part of this model. They are function-valued parameters.
- Native memory is a byte array, and a pointer is an offset into it.

Modules follow the source files:

- `function_context.dfy`, with `block_graph.dfy`, `data_flow.dfy` and `function_names.dfy` for the function;
- `instruction_context.dfy`, `legacy_instruction_context.dfy` and `basic_block_context.dfy` for nodes and blocks;
- `get_element_pointer.dfy`, `numeric_comparison.dfy`, `float_comparison.dfy` and `invoke.dfy` for lowering;
- `struct_context.dfy` for aggregates;
- `intrinsic_functions.dfy` for the runtime;
- `wrappers.dfy`, `seqs.dfy`, `llvm.dfy`, `cil.dfy` and `names.dfy` as shared vocabulary.

## Model

| member | source | states |
|---|---|---|
| FunctionContexts.FunctionContext.Create | AssetRipper.Translation.LlvmIR/FunctionContext.cs:37-64 | Fails exactly when construction throws, with the first exception in source order: the naming error, then a block added twice to `BasicBlockLookup` (ArgumentException), then an instruction value added twice to `InstructionLookup` (ArgumentException), then a successor missing from `BasicBlockLookup` (KeyNotFoundException). On success: a fresh valid context with the clean name. Blocks are in source order, and instructions are the blocks' lists concatenated. Each lookup sends a key to its position. There is one label per block. Each block's successors are its resolved successor list, and its predecessors are those of the whole linking sweep. The data-flow lists start empty and the source and destination links absent. |
| FunctionContexts.FunctionContext.constructor | AssetRipper.Translation.LlvmIR/FunctionContext.cs:17-35 | Keeps the mangled and demangled names, the return kind, the parameters and the clean name. Sets the arenas and lookups it is given. Every per-instruction list starts empty and every source and destination link absent. |
| FunctionContexts.FunctionContext.AddBlocks | AssetRipper.Translation.LlvmIR/FunctionContext.cs:41-47 | Fails with ArgumentException exactly when two blocks share a source block. Otherwise yields the block list in order, the lookup from each block to its position, and the concatenated instruction list. |
| FunctionContexts.FunctionContext.AddInstructions | AssetRipper.Translation.LlvmIR/FunctionContext.cs:49-52 | Fails with ArgumentException exactly when two instructions share a source value. Otherwise yields the lookup from each value to its position. |
| FunctionContexts.FunctionContext.LinkSuccessors | AssetRipper.Translation.LlvmIR/FunctionContext.cs:56-61 | Fails exactly when a successor is missing from the block lookup. Otherwise both list families equal the per-block successor and predecessor lists of the linking steps done so far, followed by one step per successor of this block. |
| FunctionContexts.FunctionContext.LinkBlocks | AssetRipper.Translation.LlvmIR/FunctionContext.cs:53-62 | Fails with KeyNotFoundException exactly when some successor is not a block of the function. Otherwise the labels cover exactly the lookup's blocks, one label per block position, and the successor and predecessor lists are those of the whole sweep over the blocks. |
| FunctionContexts.FunctionContext.TryGetStructReturnType | AssetRipper.Translation.LlvmIR/FunctionContext.cs:151-172 | The loop's answer equals the declarative struct-return type of the function. |
| FunctionContexts.StructReturnType | AssetRipper.Translation.LlvmIR/FunctionContext.cs:151-172 | A struct return type exists only for a void function whose first parameter is a pointer. For every such function it is that parameter's first type attribute (absent when the parameter has none). |
| FunctionContexts.FirstTypeAttribute | AssetRipper.Translation.LlvmIR/FunctionContext.cs:159-168 | Present exactly when some attribute is a type attribute, and then it is the type of the first such attribute. |
| FunctionContexts.PositionMap | AssetRipper.Translation.LlvmIR/FunctionContext.cs:41-52 | The dictionary filled by adding keys in order has exactly the listed keys, and each key maps to a position that holds it. |
| FunctionContexts.PositionMapIndexes | AssetRipper.Translation.LlvmIR/FunctionContext.cs:49-52 | Without repeated keys, every key maps to its own position. |
| FunctionContexts.BlockSlice | AssetRipper.Translation.LlvmIR/FunctionContext.cs:46 | A block's instructions sit contiguously in the function's list, right after those of the blocks before it. |
| FunctionContexts.LabelMapSpec | AssetRipper.Translation.LlvmIR/FunctionContext.cs:55 | Storing a label for each block in turn gives a label for exactly those blocks, each the label of the block's position. |
| FunctionContexts.FunctionContext.AnalyzeDataFlow | AssetRipper.Translation.LlvmIR/FunctionContext.cs:102-149 | Every `Loads`, `Stores` and `Accessors` list ends up as its old contents followed by exactly the entries the whole pass adds, in order. Each load's source and each store's destination becomes what its operand resolves to. The other instructions keep their links. |
| FunctionContexts.FunctionContext.Visit | AssetRipper.Translation.LlvmIR/FunctionContext.cs:106-132 | Visiting one instruction adds exactly the entries its role calls for, and sets its source or destination link when it is a load or a store. |
| FunctionContexts.FunctionContext.MaybeAddAccessors | AssetRipper.Translation.LlvmIR/FunctionContext.cs:135-141 | Adds one accessor entry per operand that resolves, in operand order, and nothing else. |
| FunctionContexts.FunctionContext.MaybeAddAccessor | AssetRipper.Translation.LlvmIR/FunctionContext.cs:142-148 | Adds the instruction to the `Accessors` of what the operand resolves to, and does nothing when the operand does not resolve. |
| FunctionContexts.AccessorsCountOperandOccurrences | AssetRipper.Translation.LlvmIR/FunctionContext.cs:127-131 | With the lookup `Create` builds, a phi or another instruction appears in the `Accessors` of instruction t once per occurrence of t's value among its operands. |
| DataFlow.Resolve | AssetRipper.Translation.LlvmIR/FunctionContext.cs:144 | The lookup succeeds exactly for a known value, and yields its instruction. |
| DataFlow.OwnEdgesOnly | AssetRipper.Translation.LlvmIR/FunctionContext.cs:104-133 | Only the visit of x adds x to any list. Across the whole pass, x occurs in each list as often as its own visit adds it. |
| DataFlow.LoadEdges | AssetRipper.Translation.LlvmIR/FunctionContext.cs:108-113 | A load occurs once in the `Loads` of the instruction its address resolves to, in no other `Loads` list, and in no `Stores` or `Accessors` list. |
| DataFlow.StoreEdges | AssetRipper.Translation.LlvmIR/FunctionContext.cs:114-120 | A store occurs once in the `Accessors` of the producer of the stored value. It occurs once in the `Stores` of the instruction its destination resolves to. It occurs in no `Loads` list, and nowhere else. |
| DataFlow.AccessorEdgesOfOthers | AssetRipper.Translation.LlvmIR/FunctionContext.cs:121-131 | A phi or another instruction occurs in the `Accessors` of t once per operand occurrence that resolves to t, repeats included, and in no `Loads` or `Stores` list. |
| DataFlow.ResolvingCountByValue | AssetRipper.Translation.LlvmIR/FunctionContext.cs:144-147 | With a lookup that is one-to-one, the operands resolving to v's instruction are exactly the occurrences of v. |
| BlockGraph.SuccessorsAfterSweep | AssetRipper.Translation.LlvmIR/FunctionContext.cs:53-62 | After the linking sweep, each block's `Successors` is exactly its resolved successor list, in order and with repeats. |
| BlockGraph.LinkCounts | AssetRipper.Translation.LlvmIR/FunctionContext.cs:58-60 | Each linking step adds to both sides: b occurs among a's successors, and a among b's predecessors, as often as the step a→b was taken. |
| BlockGraph.LinkingSymmetric | AssetRipper.Translation.LlvmIR/FunctionContext.cs:53-62 | b occurs in a's successors exactly as often as a occurs in b's predecessors, so membership agrees in both directions. |
| FunctionNames.TryGetSimpleName | AssetRipper.Translation.LlvmIR/FunctionContext.cs:285-297 | A name without a leading '?' is kept. Otherwise the result is the text between the prefix ("??$" or "?") and the next '@'. With no such '@' the slice throws ArgumentOutOfRangeException. |
| FunctionNames.IndexOf | AssetRipper.Translation.LlvmIR/FunctionContext.cs:290 | -1 exactly when the character does not occur from `from` on. Otherwise the first position at or after `from` holding it. |
| FunctionNames.RenamedSymbolWins | AssetRipper.Translation.LlvmIR/FunctionContext.cs:252-259 | A renamed-symbol entry decides alone, whatever the demangled name and the parser. The entry is the result exactly when it is a valid identifier. |
| FunctionNames.CleanNameErrors | AssetRipper.Translation.LlvmIR/FunctionContext.cs:250-297 | Naming fails exactly for an invalid renamed symbol (ArgumentException), or when it falls back to an MSVC-mangled name with no '@' after its prefix (ArgumentOutOfRangeException). |
| FunctionNames.UnusableDemangledNameIgnored | AssetRipper.Translation.LlvmIR/FunctionContext.cs:261 | A demangled name that is empty or equal to the mangled name is treated as absent. A name without a leading '?' then passes unchanged to the name sanitizer. |
| FunctionNames.SpecialMemberNames | AssetRipper.Translation.LlvmIR/FunctionContext.cs:263-278 | Gives the constructor, destructor and scalar-deleting-destructor suffixes under their conditions, tested in this order, and otherwise the function identifier. A `~` with a null type name counts as a destructor of "". A signature with no return type and no names counts as a constructor. |
| InstructionContexts.CreateDedicatedOrFallback | AssetRipper.Translation.Cpp/Instructions/InstructionContext.cs:23-54 | A dedicated context is built exactly from its own opcode, with a `br` splitting on `IsConditional`. Every other opcode goes to the guarded default arms. |
| InstructionContexts.CreateInvertsDedicatedOpcode | AssetRipper.Translation.Cpp/Instructions/InstructionContext.cs:25-48 | Every dedicated context kind comes back from the dispatch on its opcode. |
| InstructionContexts.Fallback | AssetRipper.Translation.Cpp/Instructions/InstructionContext.cs:49-52 | Unary math when the unary table supports the opcode. Otherwise binary math when the binary table does. Otherwise numeric conversion when the conversion table does. Otherwise the generic context. |
| InstructionContexts.HasResult | AssetRipper.Translation.Cpp/Instructions/InstructionContext.cs:73 | True exactly when the result type is present and is not the core library's void. |
| InstructionContexts.InstructionContext.constructor | AssetRipper.Translation.Cpp/Instructions/InstructionContext.cs:15-21 | Keeps the instruction, its block and function, and its operands. The kind is the dispatch's choice. The edge lists start empty, the result has the instruction's type, and there is no local yet. |
| InstructionContexts.InstructionContext.Function | AssetRipper.Translation.Cpp/Instructions/InstructionContext.cs:63 | The enclosing function is present exactly when the module has registered it. |
| InstructionContexts.InstructionContext.BasicBlock | AssetRipper.Translation.Cpp/Instructions/InstructionContext.cs:62 | The enclosing block is present exactly when the function is registered and knows the block. |
| InstructionContexts.InstructionContext.ThrowIfBasicBlockIsNull | AssetRipper.Translation.Cpp/Instructions/InstructionContext.cs:94-100 | Throws InvalidOperationException exactly when the block is absent. |
| InstructionContexts.InstructionContext.ThrowIfFunctionIsNull | AssetRipper.Translation.Cpp/Instructions/InstructionContext.cs:104-110 | Throws InvalidOperationException exactly when the function is absent. |
| InstructionContexts.InstructionContext.GetLocalVariable | AssetRipper.Translation.Cpp/Instructions/InstructionContext.cs:80 | The result local when it exists, and NullReferenceException otherwise. |
| InstructionContexts.InstructionContext.CreateLocal | AssetRipper.Translation.Cpp/Instructions/InstructionContext.cs:82-88 | Declares one local of the result type, and records it, exactly when the instruction has a result. Otherwise nothing changes. |
| LegacyInstructionContexts.Constructed | AssetRipper.Translation.Cpp/InstructionContext.cs:13-43 | On success: the instruction, the block, the function and the operands are kept, the lists start empty and the kind is the dispatch's. Only the address computation has a result type. Every class but the address computation always succeeds, and the five widening and narrowing conversions get the numeric-conversion context. For `getelementptr` the result is a pointer to the type the index walk reaches, or the walk's exception. |
| LegacyInstructionContexts.Create | AssetRipper.Translation.Cpp/InstructionContext.cs:21-43 | Dispatches and runs the chosen constructor, the address computation's included, and yields `Constructed`. |
| LegacyInstructionContexts.WalkedIndices | AssetRipper.Translation.Cpp/Instructions/GetElementPointerInstructionContext.cs:30 | The walk starts at the third operand, and has nothing to walk with two operands or fewer. |
| LegacyInstructionContexts.GepResultFollowsFieldPath | AssetRipper.Translation.Cpp/Instructions/GetElementPointerInstructionContext.cs:14-16 | With positionally named records and constant indices, an address computation's context exists exactly when the field path is valid, and its result type is a pointer to the selected field's type. Otherwise it fails with the field path's exception. |
| LegacyInstructionContexts.ConversionsBeforeMath | AssetRipper.Translation.Cpp/InstructionContext.cs:31 | The five conversions win over the math tables, whatever those tables say. |
| LegacyInstructionContexts.BranchSplit | AssetRipper.Translation.Cpp/InstructionContext.cs:32-34 | A `br` becomes the conditional or the unconditional branch according to `IsConditional`. |
| LegacyInstructionContexts.UnmatchedOpcodes | AssetRipper.Translation.Cpp/InstructionContext.cs:39-41 | Every unlisted opcode gets unary math, else binary math, else the plain base context. |
| LegacyInstructionContexts.AgreesWithNewerTable | AssetRipper.Translation.Cpp/InstructionContext.cs:21-43 | Wherever both dispatch tables build a context of the same kind, they agree on it: the older table is the newer one on their shared opcodes. |
| BasicBlocks.BasicBlockContext.Create | AssetRipper.Translation.Cpp/BasicBlockContext.cs:21-32 | Fails exactly when one of the contexts constructed along the way throws, with the first such exception in construction order. On success: the block's instruction list is, per source instruction in order, the contexts for its constant-expression operands in post-order, then the instruction's own context. The edge lists start empty. |
| BasicBlocks.BasicBlockContext.AddInstructions | AssetRipper.Translation.Cpp/BasicBlockContext.cs:25-31 | The loop over the source instructions: it stops at the first exception, and otherwise appends every instruction's entries in order. |
| BasicBlocks.BasicBlockContext.AddEntries | AssetRipper.Translation.Cpp/BasicBlockContext.cs:27-30 | One source instruction: its context is pushed and its operands walked. Then, unless a constructor threw, the stack's contents are appended to the block in enumeration order and the stack is left empty. |
| BasicBlocks.BasicBlockContext.MaybeAddOperandsToStack | AssetRipper.Translation.Cpp/BasicBlockContext.cs:34-46 | Pushes, for each operand from last to first that is a constant expression, its context and then, the same way, its own operands. The first constructor that throws ends the walk with its exception. |
| BasicBlocks.BasicBlockContext.PushOperand | AssetRipper.Translation.Cpp/BasicBlockContext.cs:38-44 | One iteration of the walk: a constant-expression operand adds its push order to the stack, any other operand adds nothing. An exception here is the exception of the whole walk. |
| BasicBlocks.BasicBlockContext.PushConstantExpression | AssetRipper.Translation.Cpp/BasicBlockContext.cs:41-43 | The constant expression's context goes on the stack, followed by what its own operands push, unless one of those constructors throws. |
| BasicBlocks.BasicBlockContext.CreateContext | AssetRipper.Translation.Cpp/BasicBlockContext.cs:41 | A context built for the block keeps the value, its operands, the block and the function. |
| BasicBlocks.BuildAllSpec | AssetRipper.Translation.Cpp/BasicBlockContext.cs:25-45 | Building a sequence of values succeeds exactly when each value builds, and then yields their contexts in order. Otherwise it fails with the exception of the first value that does not build. |
| BasicBlocks.BuildAllAppend | AssetRipper.Translation.Cpp/BasicBlockContext.cs:25-45 | Building a concatenation builds the first part and then the second; an exception in the first part wins. |
| BasicBlocks.BuildAllReverse | AssetRipper.Translation.Cpp/BasicBlockContext.cs:29 | Building the values in reverse order yields the contexts in reverse order. |
| BasicBlocks.BuildsAlike | AssetRipper.Translation.Cpp/BasicBlockContext.cs:25-31 | The push order and the block's entry order hold the same values, so a block builds in one order exactly when it builds in the other. |
| BasicBlocks.InstructionStep | AssetRipper.Translation.Cpp/BasicBlockContext.cs:25-31 | An exception while handling one source instruction is the exception of the whole block; otherwise that instruction's entries follow those of the instructions before it. |
| BasicBlocks.PrefixErrorIsFinal | AssetRipper.Translation.Cpp/BasicBlockContext.cs:25-31 | Once one of the first source instructions has thrown, the later ones are never reached. |
| BasicBlocks.StopAt | AssetRipper.Translation.Cpp/BasicBlockContext.cs:36-45 | An exception while walking one operand is the exception of the walk over all operands. |
| BasicBlocks.PushStep | AssetRipper.Translation.Cpp/BasicBlockContext.cs:41-43 | Pushing one more context and walking its operands: its own exception first, then one from its operands. Otherwise its context and its operands' contexts follow what is already built. |
| BasicBlocks.BasicBlockContext.constructor | AssetRipper.Translation.Cpp/BasicBlockContext.cs:15-19 | Keeps the source block and function, with all three lists empty. |
| BasicBlocks.PushOrderReversed | AssetRipper.Translation.Cpp/BasicBlockContext.cs:27-29 | Enumerating the stack, top first, turns the push order into the post-order of the constant-expression tree: each expression comes after its sub-expressions. |
| BasicBlocks.EntriesFromStack | AssetRipper.Translation.Cpp/BasicBlockContext.cs:27-30 | What one source instruction leaves on the stack, enumerated, is its entries, with the instruction itself last. |
| BasicBlocks.PostOrderShape | AssetRipper.Translation.Cpp/BasicBlockContext.cs:34-46 | One synthesized value per constant-expression node, repeats counted, and each is a constant expression. |
| BasicBlocks.EntriesShape | AssetRipper.Translation.Cpp/BasicBlockContext.cs:25-31 | Once built, a source instruction contributes one entry more than its constant-expression nodes, with its own context last. Every entry is attributed to the block and function. |
| BasicBlocks.WorkStack.constructor | AssetRipper.Translation.Cpp/BasicBlockContext.cs:23 | A new stack is empty. |
| BasicBlocks.WorkStack.Push | AssetRipper.Translation.Cpp/BasicBlockContext.cs:27 | Pushing puts the context on top. |
| BasicBlocks.WorkStack.Peek | AssetRipper.Translation.Cpp/BasicBlockContext.cs:28 | Peek yields the top of the stack. |
| BasicBlocks.WorkStack.Enumerate | AssetRipper.Translation.Cpp/BasicBlockContext.cs:29 | Enumeration yields the stack from the top down. |
| BasicBlocks.WorkStack.Clear | AssetRipper.Translation.Cpp/BasicBlockContext.cs:30 | Clearing leaves the stack empty. |
| GetElementPointer.NewGetElementPointer | AssetRipper.Translation.Cpp/Instructions/GetElementPointerInstructionContext.cs:10-25 | Succeeds exactly when the walk succeeds, and otherwise fails with the walk's exception. On success: the pointer operand, the index operands after it, the final type of the walk, and a pointer to that type as the result type. |
| GetElementPointer.CalculateFinalType | AssetRipper.Translation.Cpp/Instructions/GetElementPointerInstructionContext.cs:27-58 | The loop yields the walk over the operands from the third on. With only the pointer and the stride index, it yields the source element type. |
| GetElementPointer.FinalTypeFollowsFieldPath | AssetRipper.Translation.Cpp/Instructions/GetElementPointerInstructionContext.cs:30-56 | With positionally named records and constant indices, the walk selects field path[0], then path[1] of that field's type, and so on. Exceptions: a non-record type (NotSupportedException), a reference that is not a definition (InvalidCastException), an index outside the record (InvalidOperationException). |
| GetElementPointer.Step | AssetRipper.Translation.Cpp/Instructions/GetElementPointerInstructionContext.cs:33-50 | One index of the walk: a type that is not a record reference throws NotSupportedException, a reference that is not a definition throws InvalidCastException, a non-constant index throws NotSupportedException. It succeeds only from a known definition through a constant index. |
| GetElementPointer.FinalType | AssetRipper.Translation.Cpp/Instructions/GetElementPointerInstructionContext.cs:30-56 | With no index left the walk ends at the current type. From a type that is not a record reference it throws NotSupportedException. A successful walk used only constant indices. |
| GetElementPointer.FieldByPosition | AssetRipper.Translation.Cpp/Instructions/GetElementPointerInstructionContext.cs:38-41 | In a positional record, index k selects field k. An index outside the record finds no field and throws InvalidOperationException. |
| GetElementPointer.FindField | AssetRipper.Translation.Cpp/Instructions/GetElementPointerInstructionContext.cs:40 | The type of the first field so named, or InvalidOperationException when none is. |
| GetElementPointer.FieldNameInjective | AssetRipper.Translation.Cpp/Instructions/GetElementPointerInstructionContext.cs:39 | Different indices, negative ones included, never format to the same field name. |
| GetElementPointer.DecimalString | AssetRipper.Translation.Cpp/Instructions/GetElementPointerInstructionContext.cs:39 | The decimal text is non-empty and starts with '-' exactly for a negative number. |
| NumericComparison.InitNumericComparison | AssetRipper.Translation.Cpp/Instructions/NumericComparisonInstructionContext.cs:10-14 | Requires exactly two operands. Fixes the result type to Boolean, so the comparison has a result. |
| NumericComparison.Operand1 | AssetRipper.Translation.Cpp/Instructions/NumericComparisonInstructionContext.cs:15 | The first operand. |
| NumericComparison.Operand2 | AssetRipper.Translation.Cpp/Instructions/NumericComparisonInstructionContext.cs:16 | The second operand. |
| NumericComparison.AddInstructions | AssetRipper.Translation.Cpp/Instructions/NumericComparisonInstructionContext.cs:20-26 | Emits load, load, the subclass's comparison, then a store into the result local. A failing comparison leaves only the two loads emitted. A missing local fails with NullReferenceException after the comparison. |
| NumericComparison.CreateLocalThenAddInstructions | AssetRipper.Translation.Cpp/Instructions/NumericComparisonInstructionContext.cs:20-26 | After the local is created, the Boolean result always has one. A successful comparison is then stored into that new Boolean local. |
| FloatComparison.AddComparison | AssetRipper.Translation.LlvmIR/Instructions/FloatComparisonInstructionContext.cs:14-58 | Appends the predicate's opcode, possibly followed by a negation. An unsupported predicate throws NotImplementedException with nothing appended. |
| FloatComparison.AddInstructions | AssetRipper.Translation.LlvmIR/Instructions/FloatComparisonInstructionContext.cs:14-58 | The shared comparison lowering, with this predicate's opcodes in the middle, including both failure paths. |
| FloatComparison.LoweringShape | AssetRipper.Translation.LlvmIR/Instructions/FloatComparisonInstructionContext.cs:16-57 | Exactly `false`, `ord`, `uno` and `true` are refused. Every other predicate lowers to one comparison opcode, optionally followed by one negation. |
| FloatComparison.OrderedLoweringCorrect | AssetRipper.Translation.LlvmIR/Instructions/FloatComparisonInstructionContext.cs:16-54 | On ordered operands, every lowering computes the relation its predicate names. |
| FloatComparison.UnorderedLowering | AssetRipper.Translation.LlvmIR/Instructions/FloatComparisonInstructionContext.cs:16-54 | On a NaN operand, the lowering agrees with the predicate exactly for `oeq`, `une`, `ugt`, `ult`, `ogt` and `olt`. |
| Invoke.AddInstructions | AssetRipper.Translation.Cpp/Instructions/InvokeInstructionContext.cs:24-33 | Emits the call, then one `leave` or `br`, chosen by `IsLeave`, to the label of the normal-continuation block. A missing label throws KeyNotFoundException after the call. |
| Invoke.Transfer | AssetRipper.Translation.Cpp/Instructions/InvokeInstructionContext.cs:32 | `leave` exactly when `IsLeave`, otherwise `br`, to the given label. |
| Invoke.BlockOf | AssetRipper.Translation.Cpp/Instructions/InvokeInstructionContext.cs:20-21 | Null without a function. Otherwise the block's position, or KeyNotFoundException when the function does not know the block. |
| Invoke.DefaultBlockRef | AssetRipper.Translation.Cpp/Instructions/InvokeInstructionContext.cs:18 | The block named by the third-from-last operand. |
| Invoke.CatchBlockRef | AssetRipper.Translation.Cpp/Instructions/InvokeInstructionContext.cs:19 | The block named by the second-from-last operand. |
| Invoke.DefaultBlock | AssetRipper.Translation.Cpp/Instructions/InvokeInstructionContext.cs:20 | Null without an enclosing function. Otherwise it fails with KeyNotFoundException exactly when the function's block lookup lacks the normal-continuation block, and it is that block's entry when present. |
| Invoke.CatchBlock | AssetRipper.Translation.Cpp/Instructions/InvokeInstructionContext.cs:21 | Null without an enclosing function. Otherwise it fails with KeyNotFoundException exactly when the function's block lookup lacks the handler block, and it is that block's entry when present. |
| Invoke.SetIsLeave | AssetRipper.Translation.Cpp/Instructions/InvokeInstructionContext.cs:22 | The property holds the value set. |
| StructContexts.RemovePrefix | AssetRipper.Translation.Cpp/StructContext.cs:36-39 | Strips the prefix once when the name starts with it, and otherwise keeps the name. The result is always a suffix of the name. |
| StructContexts.StripTagPrefixes | AssetRipper.Translation.Cpp/StructContext.cs:43-45 | The result is a suffix of the name, and an untagged name is kept unchanged. |
| StructContexts.ExtractCleanName | AssetRipper.Translation.Cpp/StructContext.cs:41-47 | For an untagged name, the clean name of that name with fallback "Struct". |
| StructContexts.OneTagStripped | AssetRipper.Translation.Cpp/StructContext.cs:41-47 | Any one of the three tags in front of an untagged name is removed, leaving the name. |
| StructContexts.TagsShareCleanName | AssetRipper.Translation.Cpp/StructContext.cs:41-47 | "class.X", "struct.X" and "union.X" get the clean name of X. |
| StructContexts.TagOrder | AssetRipper.Translation.Cpp/StructContext.cs:43-45 | Tags are removed in this fixed order: for any untagged name X, "class.struct.X" loses both tags, while "struct.class.X" keeps "class.". |
| StructContexts.StructContext.constructor | AssetRipper.Translation.Cpp/StructContext.cs:28-34 | The clean name is computed once, from the mangled name. |
| StructContexts.StructContext.MangledName | AssetRipper.Translation.Cpp/StructContext.cs:10 | The frontend's struct name. |
| StructContexts.StructContext.DemangledName | AssetRipper.Translation.Cpp/StructContext.cs:12 | Aggregates have no demangled name. |
| StructContexts.StructContext.Name | AssetRipper.Translation.Cpp/StructContext.cs:18 | The definition's name, or "" when it is null. |
| StructContexts.StructContext.SetName | AssetRipper.Translation.Cpp/StructContext.cs:19 | The setter writes through to the definition, and the getter then returns the value. |
| Intrinsics.ToUInt32 | AssetRipper.Translation.Cpp/IntrinsicFunctions.cs:92 | The unchecked `(uint)` conversion: congruent modulo 2^32, and the identity on values that fit. |
| Intrinsics.ToInt32 | AssetRipper.Translation.Cpp/IntrinsicFunctions.cs:115 | The unchecked `(int)` conversion: congruent modulo 2^32, and the identity on values that fit. |
| Intrinsics.ToByte | AssetRipper.Translation.Cpp/IntrinsicFunctions.cs:121 | The unchecked `(byte)` conversion: congruent modulo 256, and the identity on non-negative values. |
| Intrinsics.CopyBlock | AssetRipper.Translation.Cpp/IntrinsicFunctions.cs:92 | The destination bytes get the old source bytes, and every other byte is unchanged. |
| Intrinsics.MemCpy32 | AssetRipper.Translation.Cpp/IntrinsicFunctions.cs:89-93 | Copies as many bytes as the length converted to `uint`. |
| Intrinsics.MemCpy64 | AssetRipper.Translation.Cpp/IntrinsicFunctions.cs:95-99 | Copies as many bytes as the low 32 bits of the 64-bit length. |
| Intrinsics.MemMove32 | AssetRipper.Translation.Cpp/IntrinsicFunctions.cs:101-110 | A negative length throws ArgumentOutOfRangeException with memory unchanged. Otherwise the destination gets the old source bytes, even when the regions overlap, and every other byte is unchanged. |
| Intrinsics.MemMove64 | AssetRipper.Translation.Cpp/IntrinsicFunctions.cs:112-116 | The 32-bit move with the length narrowed unchecked to `int`, including the throw when the narrowed length is negative. |
| Intrinsics.MemSet32 | AssetRipper.Translation.Cpp/IntrinsicFunctions.cs:118-122 | A negative length throws ArgumentOutOfRangeException with memory unchanged. Otherwise every byte of the span gets the value converted to `byte`, and every other byte is unchanged. |
| Intrinsics.MemSet64 | AssetRipper.Translation.Cpp/IntrinsicFunctions.cs:124-128 | The 32-bit fill with the length narrowed unchecked to `int`. |
| Intrinsics.NarrowedLengths | AssetRipper.Translation.Cpp/IntrinsicFunctions.cs:113-116 | Lengths below 2^31 survive the narrowing. Lengths from 2^31 to 2^32-1 turn negative, so the move and the fill throw. Longer lengths wrap around. |
| Intrinsics.VaCopy | AssetRipper.Translation.Cpp/IntrinsicFunctions.cs:77-81 | The destination slot gets the source slot's pointer, and every other slot is unchanged. |
| Intrinsics.VaEnd | AssetRipper.Translation.Cpp/IntrinsicFunctions.cs:83-87 | Returns normally and does nothing. |
| Intrinsics.VaStart | AssetRipper.Translation.Cpp/IntrinsicFunctions.cs:70-75 | Always throws NotSupportedException. |
| Intrinsics.Terminate | AssetRipper.Translation.Cpp/IntrinsicFunctions.cs:63-68 | Always throws FatalException. |
| Intrinsics.Expand | AssetRipper.Translation.Cpp/IntrinsicFunctions.cs:155-165 | Always null: resizing in place is never offered. |

## Left out

**Values passed in as parameters.** Calls into code that is not part of this model are inputs:
- The basic-block translation of the IR translator: a source block arrives with its instruction contexts already built.
- The `Supported` opcode tables of the math and conversion contexts.
- `NameGenerator.CleanName` and `NameGenerator.IsValidCSharpName`.
- `DemangledNamesParser.ParseFunction`.
- The frontend's queries: the operand lists, `IsConditional`, the value kinds and the type signatures.

**Parts of translation not modelled:**
- `FunctionContext.Create` registering the context in `module.Methods`. The module's function table is not modelled, so a second registration of the same function (an ArgumentException) is not either.
- The labels stored for each block are `Label(position)` values, not freshly allocated label objects. They are distinct per block as the fresh objects are, but object identity is not modelled.
- Exceptions abandon the partly built state, so the model returns the error instead of a half-filled context.
- `AddLocalVariablesPointer`, `AddLocalVariablesRef` and `AddPublicImplementation`. They emit method bodies through the module's injected types, which are not part of this model.
- The simple properties and references of `FunctionContext`: `Name`, `MightThrowAnException`, `IsVariadic`, `IsIntrinsic`, `PersonalityFunction`, and the return and function attribute arrays.
- The specialised context classes' own constructors and lowering, except the address computation, comparison and `invoke` ones. The data-flow pass sees a load's address, a store's value and destination, and a phi's incoming blocks only as roles. `InitializeIncomingBlocks` of phi nodes is not modelled.
- `LoadOperand` and the base call sequence of `invoke` are kept abstract: an opcode naming the operand, and a given opcode list.
- `Debug.Assert` conditions are preconditions: two operands for a comparison; the `invoke` shape (an `invoke` opcode with at least three operands, the third- and second-to-last of them blocks); and, when an `invoke` is lowered, `Function is not null`, `DefaultBlock is not null` and `CatchBlock is not null`. The address-computation assertion (two or more operands) is not compiled into a release build, so there it is taken as the release build runs.
- LegacyInstructionContexts.Create: a `getelementptr` with fewer than two operands follows the release build, where the debug assertion is absent: the walk over the indices is empty and the result type is a pointer to the source element type.
- LegacyInstructionContexts.Constructed: the specialised constructors other than the address computation one are not part of this model; those contexts get the base constructor's state, with no result type and no exception.
- FloatComparison.AddInstructions: the IR translator's own base comparison lowering is not part of this model; it is taken to be the C++ translator's `NumericComparisonInstructionContext` lowering, which the model follows.
- FunctionNames.TryGetSimpleName: the source's `StartsWith("??$")` uses the current culture; the model compares ordinally, which agrees for the ASCII-only MSVC-mangled names it receives.
- GetElementPointer.DecimalString: the source formats the `long` index of `$"field_{index}"` with the current culture, whose negative sign need not be '-'; the model writes the invariant-culture text, which agrees wherever the negative sign is '-'.
- GetElementPointer.Step: a field whose `Signature` is null (a NullReferenceException from `field.Signature!`) is not modelled; every field carries a type.
- The opcodes that no dispatch table names (arithmetic, bitwise, memory-ordering, vector, aggregate) are not listed one by one. They share one `Other` case that carries the frontend's number.
- Floating-point values are abstracted to how the two operands compare, including the unordered (NaN) case.
- The `Instructions.EnsureCapacity` call, which only affects memory.

**Intrinsics:**
- `PutString`, `Assert`, `InvokeWatson`, `Alloc`, `ReAlloc`, `Free` and `Delete`. Each is console I/O, a message-formatting throw, or a call into the native allocator.
- Native memory is one byte array and pointers are offsets into it. Pointer validity is a precondition.
- `memcpy`'s regions must not overlap: the behaviour of `Unsafe.CopyBlock` on overlapping regions is undefined.
- The rented buffer of `memmove` is a fresh array. Returning it to the pool is not modelled.
- `isVolatile` is accepted and ignored, as in the source.
- Intrinsics.MemCpy32: the source does not reject a negative length. It copies as many bytes as the length converted to `uint`, nearly 4 GiB, which the model can only require to fit in memory.
- Intrinsics.MemCpy64: the same holds for the 64-bit length. It is also converted to `uint`, so a negative length or one of 2^32 or more is not rejected, and the model requires the copy of the low 32 bits' worth of bytes to fit in memory.

**Other files.** `Patches.cs` patches two property getters of the LLVM binding library at run time. It holds no translation logic and is not part of this model.
