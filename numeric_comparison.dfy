/** The shared lowering of integer and floating-point comparisons
    (`NumericComparisonInstructionContext`): two operands, a Boolean
    result, and the sequence load, load, compare, store. */
module NumericComparison {
  import Llvm
  import opened Wrappers
  import opened Cil
  import opened InstructionContexts

  /** The target type every comparison produces. */
  const Boolean: TypeSig := CorLib(Cil.Boolean)

  /** The constructor's own part: exactly two operands, result type fixed to Boolean. */
  method InitNumericComparison(context: InstructionContext)
    requires |context.operands| == 2
    modifies context`resultType
    ensures context.resultType == Some(Boolean)
    ensures HasResult(context.resultType)
  {
    context.resultType := Some(Boolean);
  }

  function Operand1(context: InstructionContext): (v: Llvm.Value)
    requires |context.operands| == 2
    ensures v == context.operands[0]
  {
    context.operands[0]
  }

  function Operand2(context: InstructionContext): (v: Llvm.Value)
    requires |context.operands| == 2
    ensures v == context.operands[1]
  {
    context.operands[1]
  }

  /** The complete sequence emitted for a comparison. */
  function Lowering(operand1: Llvm.Value, operand2: Llvm.Value, comparison: seq<CilOp>, local: Local): seq<CilOp>
  {
    [LoadOperand(operand1), LoadOperand(operand2)] + comparison + [Stloc(local)]
  }

  /** `AddInstructions`. `comparison` is what the subclass's `AddComparison`
      appends, or the exception it throws. The operands are loaded first, so
      a failing comparison or a missing local leaves them appended. */
  method AddInstructions(context: InstructionContext, comparison: Result<seq<CilOp>>, instructions: InstructionCollection)
    returns (outcome: Outcome)
    requires |context.operands| == 2
    modifies instructions`ops
    ensures comparison.Err? ==>
      outcome == Fail(comparison.error) &&
      instructions.ops == old(instructions.ops) + [LoadOperand(Operand1(context)), LoadOperand(Operand2(context))]
    ensures comparison.Ok? && context.resultLocal.None? ==>
      outcome == Fail(NullReferenceException) &&
      instructions.ops == old(instructions.ops) + [LoadOperand(Operand1(context)), LoadOperand(Operand2(context))] + comparison.value
    ensures comparison.Ok? && context.resultLocal.Some? ==>
      outcome == Pass &&
      instructions.ops == old(instructions.ops) + Lowering(Operand1(context), Operand2(context), comparison.value, context.resultLocal.value)
  {
    instructions.Add(LoadOperand(Operand1(context)));
    instructions.Add(LoadOperand(Operand2(context)));
    if comparison.Err? {
      return Fail(comparison.error);
    }
    instructions.AddRange(comparison.value);
    var local := context.GetLocalVariable();
    if local.Err? {
      return Fail(local.error);
    }
    instructions.Add(Stloc(local.value));
    outcome := Pass;
  }

  /** Creating the local and then lowering: the result is Boolean, so the
      local always exists and the final `stloc` stores into it. */
  method CreateLocalThenAddInstructions(context: InstructionContext, comparison: Result<seq<CilOp>>,
                                        instructions: InstructionCollection) returns (outcome: Outcome)
    requires |context.operands| == 2 && context.resultType == Some(Boolean)
    modifies context`resultLocal, instructions
    ensures comparison.Ok? ==>
      outcome == Pass &&
      context.resultLocal == Some(|old(instructions.locals)|) &&
      instructions.locals == old(instructions.locals) + [Boolean] &&
      instructions.ops == old(instructions.ops) + Lowering(Operand1(context), Operand2(context), comparison.value, |old(instructions.locals)|)
    ensures comparison.Err? ==>
      outcome == Fail(comparison.error) &&
      context.resultLocal == Some(|old(instructions.locals)|) &&
      instructions.locals == old(instructions.locals) + [Boolean] &&
      instructions.ops == old(instructions.ops) + [LoadOperand(Operand1(context)), LoadOperand(Operand2(context))]
  {
    context.CreateLocal(instructions);
    outcome := AddInstructions(context, comparison, instructions);
  }
}
