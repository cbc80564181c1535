/** The instruction node of the translator (`Instructions/InstructionContext`):
    the opcode dispatch that picks its kind, its mutable result and edge
    fields, and the lookups of its enclosing block and function. */
module InstructionContexts {
  import Llvm
  import opened Wrappers
  import opened Cil

  /** One case per specialised context class that `Create` can build. */
  datatype Kind =
    | Alloca | Load | Store | Call | IntegerComparison | FloatComparison
    | ConditionalBranch | UnconditionalBranch | Return | Phi | GetElementPointer
    | SwitchBranch | Select | BitCast | VAArg | Invoke
    | CatchSwitch | CatchPad | CatchReturn | CleanupPad | CleanupReturn
    | UnaryMath | BinaryMath | NumericConversion | Generic

  /** The `Supported` opcode tests of the unary-math, binary-math and
      numeric-conversion contexts; their tables are not part of this model. */
  datatype Support = Support(unary: Llvm.Opcode -> bool, binary: Llvm.Opcode -> bool, conversion: Llvm.Opcode -> bool)

  /** The context kind `Create` builds for an instruction with this opcode;
      `isConditional` is the frontend's `IsConditional` of a `br`. */
  function Create(opcode: Llvm.Opcode, isConditional: bool, support: Support): Kind
  {
    match opcode
    case Alloca => Alloca
    case Load => Load
    case Store => Store
    case Call => Call
    case ICmp => IntegerComparison
    case FCmp => FloatComparison
    case Br => if isConditional then ConditionalBranch else UnconditionalBranch
    case Ret => Return
    case PHI => Phi
    case GetElementPtr => GetElementPointer
    case Switch => SwitchBranch
    case Select => Select
    case BitCast => BitCast
    case VAArg => VAArg
    case Invoke => Invoke
    case CatchSwitch => CatchSwitch
    case CatchPad => CatchPad
    case CatchRet => CatchReturn
    case CleanupPad => CleanupPad
    case CleanupRet => CleanupReturn
    case _ => Fallback(opcode, support)
  }

  /** The guarded default arms, tried in order. */
  function Fallback(opcode: Llvm.Opcode, support: Support): (k: Kind)
    ensures k == UnaryMath <==> support.unary(opcode)
    ensures k == BinaryMath <==> !support.unary(opcode) && support.binary(opcode)
    ensures k == NumericConversion <==> !support.unary(opcode) && !support.binary(opcode) && support.conversion(opcode)
    ensures k in {UnaryMath, BinaryMath, NumericConversion, Generic}
  {
    if support.unary(opcode) then UnaryMath
    else if support.binary(opcode) then BinaryMath
    else if support.conversion(opcode) then NumericConversion
    else Generic
  }

  /** The single opcode a dedicated kind is built from; `None` for the kinds
      that only the guarded default arms produce. */
  function DedicatedOpcode(k: Kind): Option<Llvm.Opcode>
  {
    match k
    case Alloca => Some(Llvm.Alloca)
    case Load => Some(Llvm.Load)
    case Store => Some(Llvm.Store)
    case Call => Some(Llvm.Call)
    case IntegerComparison => Some(Llvm.ICmp)
    case FloatComparison => Some(Llvm.FCmp)
    case ConditionalBranch => Some(Llvm.Br)
    case UnconditionalBranch => Some(Llvm.Br)
    case Return => Some(Llvm.Ret)
    case Phi => Some(Llvm.PHI)
    case GetElementPointer => Some(Llvm.GetElementPtr)
    case SwitchBranch => Some(Llvm.Switch)
    case Select => Some(Llvm.Select)
    case BitCast => Some(Llvm.BitCast)
    case VAArg => Some(Llvm.VAArg)
    case Invoke => Some(Llvm.Invoke)
    case CatchSwitch => Some(Llvm.CatchSwitch)
    case CatchPad => Some(Llvm.CatchPad)
    case CatchReturn => Some(Llvm.CatchRet)
    case CleanupPad => Some(Llvm.CleanupPad)
    case CleanupReturn => Some(Llvm.CleanupRet)
    case _ => None
  }

  /** Every dedicated kind comes back from `Create` applied to its opcode
      (a `br` with `IsConditional` for the conditional branch). */
  lemma CreateInvertsDedicatedOpcode(k: Kind, support: Support)
    requires DedicatedOpcode(k).Some?
    ensures Create(DedicatedOpcode(k).value, k == ConditionalBranch, support) == k
  {
  }

  /** `Create` yields a dedicated kind exactly for that kind's opcode (a `br`
      splitting on `IsConditional`), and the guarded default arms otherwise. */
  lemma CreateDedicatedOrFallback(opcode: Llvm.Opcode, isConditional: bool, support: Support)
    ensures var k := Create(opcode, isConditional, support);
      if DedicatedOpcode(k).Some? then
        DedicatedOpcode(k) == Some(opcode) &&
        (opcode == Llvm.Br ==> (k == ConditionalBranch <==> isConditional))
      else
        k == Fallback(opcode, support) &&
        forall k': Kind :: DedicatedOpcode(k') != Some(opcode)
  {
  }

  /** An instruction produces a value exactly when its result type is
      present and is not the core library's `void`. */
  function HasResult(resultType: Option<TypeSig>): (b: bool)
    ensures b <==> resultType.Some? && resultType.value != CorLib(Void)
  {
    match resultType
    case None => false
    case Some(CorLib(Void)) => false
    case Some(_) => true
  }

  /** The part of a translated function an instruction can look itself up in. */
  datatype FunctionView = FunctionView(basicBlockLookup: map<Llvm.BlockRef, nat>, labels: map<Llvm.BlockRef, Label>)

  /** The module's function table (`Module.Methods`). */
  datatype ModuleView = ModuleView(methods: map<Llvm.FunctionRef, FunctionView>)

  /** An instruction node. The specialised context classes share these
      fields; `kind` says which class `Create` chose, and `isLeave` is the
      invoke context's own property. */
  class InstructionContext {
    const instruction: Llvm.Value
    /** The source block holding the instruction (`InstructionParent`). */
    const basicBlockRef: Llvm.BlockRef
    /** The source function holding that block (`Parent`). */
    const functionRef: Llvm.FunctionRef
    const operands: seq<Llvm.Value>
    const kind: Kind
    var loads: seq<InstructionContext>
    var stores: seq<InstructionContext>
    var accessors: seq<InstructionContext>
    var resultType: Option<TypeSig>
    var resultLocal: Option<Local>
    /** `IsLeave` of an `invoke` context, which its lowering reads; false
        until set, and unused by every other kind. */
    var isLeave: bool

    /** `Create` followed by the base constructor; `typeOf` is the target
        signature of the instruction's type. */
    constructor (instruction: Llvm.Value, basicBlockRef: Llvm.BlockRef, functionRef: Llvm.FunctionRef,
                 isConditional: bool, typeOf: Option<TypeSig>, support: Support)
      ensures this.instruction == instruction && this.basicBlockRef == basicBlockRef
      ensures this.functionRef == functionRef
      ensures kind == Create(instruction.opcode, isConditional, support)
      ensures operands == instruction.operands
      ensures loads == [] && stores == [] && accessors == []
      ensures resultType == typeOf && resultLocal == None && !isLeave
    {
      this.instruction := instruction;
      this.basicBlockRef := basicBlockRef;
      this.functionRef := functionRef;
      kind := Create(instruction.opcode, isConditional, support);
      operands := instruction.operands;
      loads, stores, accessors := [], [], [];
      resultType := typeOf;
      resultLocal := None;
      isLeave := false;
    }

    /** The enclosing function, if the module has registered it. */
    function Function(m: ModuleView): (r: Option<FunctionView>)
      ensures r.Some? <==> functionRef in m.methods
      ensures r.Some? ==> r.value == m.methods[functionRef]
    {
      if functionRef in m.methods then Some(m.methods[functionRef]) else None
    }

    /** The enclosing block, if the function is registered and knows it. */
    function BasicBlock(m: ModuleView): (r: Option<nat>)
      ensures r.Some? <==> functionRef in m.methods && basicBlockRef in m.methods[functionRef].basicBlockLookup
      ensures r.Some? ==> r.value == m.methods[functionRef].basicBlockLookup[basicBlockRef]
    {
      match Function(m)
      case None => None
      case Some(f) => if basicBlockRef in f.basicBlockLookup then Some(f.basicBlockLookup[basicBlockRef]) else None
    }

    function ThrowIfBasicBlockIsNull(m: ModuleView): (r: Outcome)
      ensures r.Fail? <==> BasicBlock(m).None?
      ensures r.Fail? ==> r.error == InvalidOperationException
    {
      if BasicBlock(m).None? then Fail(InvalidOperationException) else Pass
    }

    function ThrowIfFunctionIsNull(m: ModuleView): (r: Outcome)
      ensures r.Fail? <==> Function(m).None?
      ensures r.Fail? ==> r.error == InvalidOperationException
    {
      if Function(m).None? then Fail(InvalidOperationException) else Pass
    }

    /** The result local, or the null-reference failure when none was created. */
    function GetLocalVariable(): (r: Result<Local>)
      reads this
      ensures r.Ok? <==> resultLocal.Some?
      ensures r.Ok? ==> r.value == resultLocal.value
      ensures r.Err? ==> r.error == NullReferenceException
    {
      match resultLocal
      case Some(local) => Ok(local)
      case None => Err(NullReferenceException)
    }

    /** Declares a local of the result type exactly when the instruction
        has a result; otherwise nothing changes. */
    method CreateLocal(instructions: InstructionCollection)
      modifies this`resultLocal, instructions`locals
      ensures HasResult(resultType) ==>
        resultLocal == Some(|old(instructions.locals)|) &&
        instructions.locals == old(instructions.locals) + [resultType.value]
      ensures !HasResult(resultType) ==>
        resultLocal == old(resultLocal) && instructions.locals == old(instructions.locals)
    {
      if HasResult(resultType) {
        var local := instructions.AddLocalVariable(resultType.value);
        resultLocal := Some(local);
      }
    }
  }
}
