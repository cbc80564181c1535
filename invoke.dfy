/** Lowering of `invoke` (`InvokeInstructionContext`): the call, then one
    transfer to the normal-continuation block. */
module Invoke {
  import Llvm
  import opened Wrappers
  import opened Cil
  import opened InstructionContexts

  /** What the constructor asserts: an `invoke` whose third- and
      second-to-last operands are basic blocks. */
  predicate WellFormed(context: InstructionContext)
  {
    context.instruction.opcode == Llvm.Invoke &&
    |context.operands| >= 3 &&
    context.operands[|context.operands| - 3].kind.BasicBlockValue? &&
    context.operands[|context.operands| - 2].kind.BasicBlockValue?
  }

  /** The normal-continuation block: the third-from-last operand. */
  function DefaultBlockRef(context: InstructionContext): (r: Llvm.BlockRef)
    requires WellFormed(context)
    ensures context.operands[|context.operands| - 3].kind == Llvm.BasicBlockValue(r)
  {
    context.operands[|context.operands| - 3].kind.block
  }

  /** The handler block: the second-from-last operand. */
  function CatchBlockRef(context: InstructionContext): (r: Llvm.BlockRef)
    requires WellFormed(context)
    ensures context.operands[|context.operands| - 2].kind == Llvm.BasicBlockValue(r)
  {
    context.operands[|context.operands| - 2].kind.block
  }

  /** A block of the enclosing function: null when there is no function,
      the lookup failure when the function does not know the block. */
  function BlockOf(context: InstructionContext, m: ModuleView, ref: Llvm.BlockRef): (r: Result<Option<nat>>)
    ensures context.Function(m).None? ==> r == Ok(None)
    ensures context.Function(m).Some? ==>
      if ref in context.Function(m).value.basicBlockLookup
      then r == Ok(Some(context.Function(m).value.basicBlockLookup[ref]))
      else r == Err(KeyNotFoundException)
  {
    match context.Function(m)
    case None => Ok(None)
    case Some(f) => if ref in f.basicBlockLookup then Ok(Some(f.basicBlockLookup[ref])) else Err(KeyNotFoundException)
  }

  /** `DefaultBlock`: the normal-continuation block in the enclosing function. */
  function DefaultBlock(context: InstructionContext, m: ModuleView): (r: Result<Option<nat>>)
    requires WellFormed(context)
    ensures context.Function(m).None? ==> r == Ok(None)
    ensures context.Function(m).Some? ==>
      var lookup := context.Function(m).value.basicBlockLookup;
      (r.Err? <==> DefaultBlockRef(context) !in lookup) &&
      (r.Err? ==> r.error == KeyNotFoundException) &&
      (r.Ok? ==> r.value == Some(lookup[DefaultBlockRef(context)]))
  {
    BlockOf(context, m, DefaultBlockRef(context))
  }

  /** `CatchBlock`: the handler block in the enclosing function. */
  function CatchBlock(context: InstructionContext, m: ModuleView): (r: Result<Option<nat>>)
    requires WellFormed(context)
    ensures context.Function(m).None? ==> r == Ok(None)
    ensures context.Function(m).Some? ==>
      var lookup := context.Function(m).value.basicBlockLookup;
      (r.Err? <==> CatchBlockRef(context) !in lookup) &&
      (r.Err? ==> r.error == KeyNotFoundException) &&
      (r.Ok? ==> r.value == Some(lookup[CatchBlockRef(context)]))
  {
    BlockOf(context, m, CatchBlockRef(context))
  }

  /** The transfer that ends the lowering: `leave` inside a protected region, `br` otherwise. */
  function Transfer(isLeave: bool, target: Label): (op: CilOp)
    ensures op.Leave? <==> isLeave
    ensures op.Br? <==> !isLeave
    ensures op.target == target
  {
    if isLeave then Leave(target) else Br(target)
  }

  /** `AddInstructions`: the base call sequence `callOps`, then one transfer
      to the default block's label. A missing label fails after the call
      has been appended. */
  method AddInstructions(context: InstructionContext, m: ModuleView, callOps: seq<CilOp>, instructions: InstructionCollection)
    returns (outcome: Outcome)
    requires WellFormed(context)
    requires context.Function(m).Some?
    requires DefaultBlock(context, m).Ok? && DefaultBlock(context, m).value.Some?
    requires CatchBlock(context, m).Ok? && CatchBlock(context, m).value.Some?
    modifies instructions`ops
    ensures var labels := context.Function(m).value.labels;
      if DefaultBlockRef(context) in labels then
        outcome == Pass &&
        instructions.ops == old(instructions.ops) + callOps + [Transfer(context.isLeave, labels[DefaultBlockRef(context)])]
      else
        outcome == Fail(KeyNotFoundException) && instructions.ops == old(instructions.ops) + callOps
  {
    instructions.AddRange(callOps);
    var labels := context.Function(m).value.labels;
    if DefaultBlockRef(context) !in labels {
      return Fail(KeyNotFoundException);
    }
    instructions.Add(if context.isLeave then Leave(labels[DefaultBlockRef(context)]) else Br(labels[DefaultBlockRef(context)]));
    outcome := Pass;
  }

  /** The `IsLeave` setter. */
  method SetIsLeave(context: InstructionContext, value: bool)
    modifies context`isLeave
    ensures context.isLeave == value
  {
    context.isLeave := value;
  }
}
