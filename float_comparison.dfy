/** Floating-point comparison lowering (`FloatComparisonInstructionContext`):
    each predicate becomes one comparison opcode, possibly followed by a
    Boolean negation. Floats are abstracted to the outcome of comparing the
    two operands. */
module FloatComparison {
  import Llvm
  import opened Wrappers
  import opened Cil
  import opened InstructionContexts
  import NumericComparison

  /** How two floating-point operands compare; `Unordered` when either is NaN. */
  datatype Order = Less | Equal | Greater | Unordered

  /** The Boolean a comparison opcode pushes (ECMA-335 Partition III, sections
      3.21 to 3.26: `ceq`, `cgt`, `cgt.un`, `clt`, `clt.un`). */
  function Compare(op: CilOp, order: Order): Option<bool>
  {
    match op
    case Ceq => Some(order == Equal)
    case Cgt => Some(order == Greater)
    case CgtUn => Some(order == Greater || order == Unordered)
    case Clt => Some(order == Less)
    case CltUn => Some(order == Less || order == Unordered)
    case _ => None
  }

  /** The Boolean a comparison sequence leaves on the stack: one comparison,
      then any number of negations; `None` for anything else. */
  function Evaluate(ops: seq<CilOp>, order: Order): Option<bool>
  {
    if |ops| == 0 then None
    else if |ops| == 1 then Compare(ops[0], order)
    else if ops[|ops| - 1] != BooleanNot then None
    else match Evaluate(ops[..|ops| - 1], order)
      case None => None
      case Some(b) => Some(!b)
  }

  /** What each predicate means in the IR: the ordered ones are false on
      unordered operands, the unordered ones are true. */
  function Holds(pred: Llvm.RealPredicate, order: Order): bool
  {
    match pred
    case PredicateFalse => false
    case OEQ => order == Equal
    case OGT => order == Greater
    case OGE => order == Greater || order == Equal
    case OLT => order == Less
    case OLE => order == Less || order == Equal
    case ONE => order == Less || order == Greater
    case ORD => order != Unordered
    case UNO => order == Unordered
    case UEQ => order == Equal || order == Unordered
    case UGT => order == Greater || order == Unordered
    case UGE => order != Less
    case ULT => order == Less || order == Unordered
    case ULE => order != Greater
    case UNE => order != Equal
    case PredicateTrue => true
  }

  /** The opcodes `AddComparison` appends for a predicate, or its failure. */
  function ComparisonOps(pred: Llvm.RealPredicate): Result<seq<CilOp>>
  {
    match pred
    case OEQ => Ok([Ceq])
    case UEQ => Ok([Ceq])
    case ONE => Ok([Ceq, BooleanNot])
    case UNE => Ok([Ceq, BooleanNot])
    case UGT => Ok([CgtUn])
    case UGE => Ok([CltUn, BooleanNot])
    case ULT => Ok([CltUn])
    case ULE => Ok([CgtUn, BooleanNot])
    case OGT => Ok([Cgt])
    case OGE => Ok([Clt, BooleanNot])
    case OLT => Ok([Clt])
    case OLE => Ok([Cgt, BooleanNot])
    case _ => Err(NotImplementedException)
  }

  /** `AddComparison`: appends the predicate's opcodes; an unknown predicate
      throws before anything is appended. */
  method AddComparison(pred: Llvm.RealPredicate, instructions: InstructionCollection) returns (outcome: Outcome)
    modifies instructions`ops
    ensures ComparisonOps(pred).Ok? ==>
      outcome == Pass && instructions.ops == old(instructions.ops) + ComparisonOps(pred).value
    ensures ComparisonOps(pred).Err? ==>
      outcome == Fail(NotImplementedException) && instructions.ops == old(instructions.ops)
  {
    match pred {
      case OEQ => instructions.Add(Ceq);
      case UEQ => instructions.Add(Ceq);
      case ONE => instructions.Add(Ceq); instructions.Add(BooleanNot);
      case UNE => instructions.Add(Ceq); instructions.Add(BooleanNot);
      case UGT => instructions.Add(CgtUn);
      case UGE => instructions.Add(CltUn); instructions.Add(BooleanNot);
      case ULT => instructions.Add(CltUn);
      case ULE => instructions.Add(CgtUn); instructions.Add(BooleanNot);
      case OGT => instructions.Add(Cgt);
      case OGE => instructions.Add(Clt); instructions.Add(BooleanNot);
      case OLT => instructions.Add(Clt);
      case OLE => instructions.Add(Cgt); instructions.Add(BooleanNot);
      case _ => return Fail(NotImplementedException);
    }
    outcome := Pass;
  }

  /** The whole lowering of a float comparison: the shared sequence with this
      predicate's opcodes in the middle. */
  method AddInstructions(context: InstructionContext, pred: Llvm.RealPredicate, instructions: InstructionCollection)
    returns (outcome: Outcome)
    requires |context.operands| == 2
    modifies instructions`ops
    ensures ComparisonOps(pred).Ok? && context.resultLocal.Some? ==>
      outcome == Pass &&
      instructions.ops == old(instructions.ops) +
        NumericComparison.Lowering(context.operands[0], context.operands[1], ComparisonOps(pred).value, context.resultLocal.value)
    ensures ComparisonOps(pred).Ok? && context.resultLocal.None? ==>
      outcome == Fail(NullReferenceException) &&
      instructions.ops == old(instructions.ops) +
        [LoadOperand(context.operands[0]), LoadOperand(context.operands[1])] + ComparisonOps(pred).value
    ensures ComparisonOps(pred).Err? ==>
      outcome == Fail(NotImplementedException) &&
      instructions.ops == old(instructions.ops) + [LoadOperand(context.operands[0]), LoadOperand(context.operands[1])]
  {
    outcome := NumericComparison.AddInstructions(context, ComparisonOps(pred), instructions);
  }

  /** The predicates that lower to something: the ten relations and the two
      equalities; `false`, `ord`, `uno` and `true` are refused. */
  lemma {:induction false} LoweringShape(pred: Llvm.RealPredicate)
    ensures ComparisonOps(pred).Ok? <==>
      pred !in {Llvm.PredicateFalse, Llvm.ORD, Llvm.UNO, Llvm.PredicateTrue}
    ensures ComparisonOps(pred).Err? ==> ComparisonOps(pred).error == NotImplementedException
    ensures ComparisonOps(pred).Ok? ==>
      var ops := ComparisonOps(pred).value;
      1 <= |ops| <= 2 && ops[0] in {Ceq, Cgt, CgtUn, Clt, CltUn} && (|ops| == 2 ==> ops[1] == BooleanNot)
  {
  }

  /** On ordered operands every lowering computes the relation its predicate names. */
  lemma {:induction false} OrderedLoweringCorrect(pred: Llvm.RealPredicate, order: Order)
    requires ComparisonOps(pred).Ok?
    requires order != Unordered
    ensures Evaluate(ComparisonOps(pred).value, order) == Some(Holds(pred, order))
  {
  }

  /** On a NaN operand exactly six lowerings agree with the predicate; for
      `ueq`, `one`, `uge`, `ule`, `oge` and `ole` the emitted code gives the
      opposite answer. */
  lemma {:induction false} UnorderedLowering(pred: Llvm.RealPredicate)
    requires ComparisonOps(pred).Ok?
    ensures Evaluate(ComparisonOps(pred).value, Unordered).Some?
    ensures Evaluate(ComparisonOps(pred).value, Unordered) == Some(Holds(pred, Unordered)) <==>
      pred in {Llvm.OEQ, Llvm.UNE, Llvm.UGT, Llvm.ULT, Llvm.OGT, Llvm.OLT}
  {
  }
}
