/** The frontend's view of the input IR, reduced to what the translator
    queries: opcodes, value kinds, operand trees, comparison predicates. */
module Llvm {

  /** Identity of a source value (an `LLVMValueRef`): compared, never inspected. */
  type ValueId = nat
  /** Identity of a source basic block (an `LLVMBasicBlockRef`). */
  type BlockRef = nat
  /** Identity of a source function value. */
  type FunctionRef = nat

  /** The instruction opcodes of the frontend (`LLVMOpcode`). Those the
      translator's dispatch tables name are listed; every other opcode (the
      arithmetic, bitwise, memory-ordering, vector and aggregate ones) is
      `Other`, carrying the frontend's number for it. */
  datatype Opcode =
    | Ret | Br | Switch | Invoke
    | Alloca | Load | Store | GetElementPtr
    | Trunc | ZExt | SExt | FPTrunc | FPExt | BitCast
    | ICmp | FCmp | PHI | Call | Select | VAArg
    | CleanupRet | CatchRet | CatchPad | CleanupPad | CatchSwitch
    | Other(code: nat)

  /** The value kinds the translator distinguishes (`LLVMValueKind`). */
  datatype ValueKind =
    | InstructionValue
    | ConstantExprValue
    | ConstantIntValue(sext: int)     // the constant, sign-extended (`ConstIntSExt`)
    | BasicBlockValue(block: BlockRef) // a block used as an operand
    | ArgumentValue
    | GlobalValue
    | OtherValue

  /** A source value with its operand list. Constant expressions nest, so
      values form a tree; `id` keeps two structurally equal values apart. */
  datatype Value = Value(id: ValueId, kind: ValueKind, opcode: Opcode, operands: seq<Value>)

  /** The floating-point comparison predicates (`LLVMRealPredicate`). */
  datatype RealPredicate =
    | PredicateFalse | OEQ | OGT | OGE | OLT | OLE | ONE | ORD
    | UNO | UEQ | UGT | UGE | ULT | ULE | UNE | PredicateTrue
}
