/** The target side: type signatures, an abstract CIL opcode list, and the
    instruction collection that lowering appends to. */
module Cil {
  import opened Llvm

  /** Element types of the core library's type signatures. */
  datatype ElementType =
    | Void | Boolean | Char | I1 | U1 | I2 | U2 | I4 | U4 | I8 | U8 | R4 | R8
    | String | Object | IntPtr | UIntPtr

  /** A target type signature. */
  datatype TypeSig =
    | CorLib(element: ElementType)   // a `CorLibTypeSignature`
    | TypeDefOrRef(name: string)     // a named record type
    | PointerTo(pointee: TypeSig)    // `MakePointerType()`
    | OtherSig(tag: nat)             // arrays, generic instances, function pointers

  /** A declared local variable of the method body, by position. */
  type Local = nat

  /** A forward-declarable branch target (`CilInstructionLabel`). */
  datatype Label = Label(id: nat)

  /** The target operations the modelled lowering code emits. Loading an
      operand and the base call sequence are kept abstract. */
  datatype CilOp =
    | Ceq | Cgt | CgtUn | Clt | CltUn
    | BooleanNot                     // what `AddBooleanNot` appends
    | LoadOperand(operand: Value)
    | Stloc(local: Local)
    | Br(target: Label)
    | Leave(target: Label)
    | Emitted(tag: nat)              // an opcode of a part that is not modelled

  /** A method body under construction: its opcodes and its locals. */
  class InstructionCollection {
    var ops: seq<CilOp>
    var locals: seq<TypeSig>

    constructor ()
      ensures ops == [] && locals == []
    {
      ops := [];
      locals := [];
    }

    method Add(op: CilOp)
      modifies this`ops
      ensures ops == old(ops) + [op]
    {
      ops := ops + [op];
    }

    method AddRange(s: seq<CilOp>)
      modifies this`ops
      ensures ops == old(ops) + s
    {
      ops := ops + s;
    }

    /** Declares a new local of type `t`; the local is its position. */
    method AddLocalVariable(t: TypeSig) returns (local: Local)
      modifies this`locals
      ensures locals == old(locals) + [t]
      ensures local == |old(locals)| && locals[local] == t
    {
      local := |locals|;
      locals := locals + [t];
    }
  }
}
