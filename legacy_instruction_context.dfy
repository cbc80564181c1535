/** The older instruction node of the translator (`InstructionContext` in
    the project's root namespace): a record fixed at construction whose
    kind comes from a smaller dispatch table. */
module LegacyInstructionContexts {
  import Llvm
  import opened Wrappers
  import opened Cil
  import InstructionContexts
  import GetElementPointer

  /** One case per context class the older `Create` can build; `Base` is a
      plain `InstructionContext` for everything else. */
  datatype Kind =
    | Alloca | Load | Store | Call | IntegerComparison | FloatComparison
    | NumericConversion | ConditionalBranch | UnconditionalBranch | Return | Phi
    | GetElementPointer | SwitchBranch | UnaryMath | BinaryMath | Base

  /** The `Supported` tests of the math contexts, which are not part of this model. */
  datatype Support = Support(unary: Llvm.Opcode -> bool, binary: Llvm.Opcode -> bool)

  /** The five widening and narrowing conversions with their own arm. */
  predicate IsConversion(opcode: Llvm.Opcode)
  {
    opcode in {Llvm.ZExt, Llvm.SExt, Llvm.Trunc, Llvm.FPExt, Llvm.FPTrunc}
  }

  function CreateKind(opcode: Llvm.Opcode, isConditional: bool, support: Support): Kind
  {
    match opcode
    case Alloca => Alloca
    case Load => Load
    case Store => Store
    case Call => Call
    case ICmp => IntegerComparison
    case FCmp => FloatComparison
    case ZExt => NumericConversion
    case SExt => NumericConversion
    case Trunc => NumericConversion
    case FPExt => NumericConversion
    case FPTrunc => NumericConversion
    case Br => if isConditional then ConditionalBranch else UnconditionalBranch
    case Ret => Return
    case PHI => Phi
    case GetElementPtr => GetElementPointer
    case Switch => SwitchBranch
    case _ =>
      if support.unary(opcode) then UnaryMath
      else if support.binary(opcode) then BinaryMath
      else Base
  }

  /** An instruction node: the fields its constructor fixes and the derived
      edge lists and result type, which start empty and absent except where
      a context class sets the result type in its constructor. */
  datatype InstructionContext = InstructionContext(
    instruction: Llvm.Value,
    block: Llvm.BlockRef,
    functionRef: Llvm.FunctionRef,
    operands: seq<Llvm.Value>,
    kind: Kind,
    loads: seq<nat>,
    stores: seq<nat>,
    accessors: seq<nat>,
    resultType: Option<TypeSig>)

  /** What the address-computation constructor reads from the module: the
      record layouts, and the target signature of an instruction's source
      element type (`GetTypeSignature` of `GetGEPSourceElementType`). */
  datatype TypeContext = TypeContext(structs: GetElementPointer.Structs, sourceElementType: Llvm.Value -> TypeSig)

  /** The index operands the address computation walks: from the third
      operand on, none when there are fewer than three. */
  function WalkedIndices(operands: seq<Llvm.Value>): (r: seq<Llvm.Value>)
    ensures |operands| >= 2 ==> r == operands[2..]
    ensures |operands| <= 2 ==> r == []
  {
    if |operands| < 2 then [] else operands[2..]
  }

  /** What `Create` yields: the context of the chosen class, or the
      exception its constructor throws. Only the address computation sets a
      result type (a pointer to the type its walk reaches), and only its
      walk can throw. */
  function Constructed(instruction: Llvm.Value, block: Llvm.BlockRef, functionRef: Llvm.FunctionRef,
                       isConditional: bool, support: Support, types: TypeContext): (r: Result<InstructionContext>)
    ensures r.Ok? ==>
      r.value.instruction == instruction && r.value.block == block && r.value.functionRef == functionRef &&
      r.value.operands == instruction.operands &&
      r.value.loads == [] && r.value.stores == [] && r.value.accessors == [] &&
      r.value.kind == CreateKind(instruction.opcode, isConditional, support)
    ensures r.Ok? ==> (r.value.resultType.Some? <==> r.value.kind == GetElementPointer)
    ensures r.Ok? && !InstructionContexts.HasResult(r.value.resultType) ==> r.value.kind != GetElementPointer
    ensures CreateKind(instruction.opcode, isConditional, support) != GetElementPointer ==> r.Ok?
    ensures IsConversion(instruction.opcode) ==> r.Ok? && r.value.kind == NumericConversion
    ensures CreateKind(instruction.opcode, isConditional, support) == GetElementPointer ==>
      var walk := GetElementPointer.FinalType(types.structs, types.sourceElementType(instruction),
                                              WalkedIndices(instruction.operands));
      (r.Ok? <==> walk.Ok?) &&
      (r.Err? ==> r.error == walk.error) &&
      (r.Ok? ==> r.value.resultType == Some(PointerTo(walk.value)))
  {
    var kind := CreateKind(instruction.opcode, isConditional, support);
    if kind == GetElementPointer then
      match GetElementPointer.FinalType(types.structs, types.sourceElementType(instruction),
                                        WalkedIndices(instruction.operands))
      case Err(e) => Err(e)
      case Ok(t) => Ok(InstructionContext(instruction, block, functionRef, instruction.operands,
                                          kind, [], [], [], Some(PointerTo(t))))
    else
      Ok(InstructionContext(instruction, block, functionRef, instruction.operands, kind, [], [], [], None))
  }

  /** `Create`: the dispatch on the source opcode, then the constructor of
      the chosen class. The address computation's constructor walks the
      index operands and may throw; every other class runs the base
      constructor only. */
  method Create(instruction: Llvm.Value, block: Llvm.BlockRef, functionRef: Llvm.FunctionRef,
                isConditional: bool, support: Support, types: TypeContext) returns (r: Result<InstructionContext>)
    ensures r == Constructed(instruction, block, functionRef, isConditional, support, types)
  {
    var kind := CreateKind(instruction.opcode, isConditional, support);
    var resultType: Option<TypeSig> := None;
    if kind == GetElementPointer {
      var sourceElementType := types.sourceElementType(instruction);
      if |instruction.operands| >= 2 {
        var gep := GetElementPointer.NewGetElementPointer(types.structs, sourceElementType, instruction.operands);
        if gep.Err? {
          return Err(gep.error);
        }
        resultType := Some(gep.value.resultType);
      } else {
        // The constructor's debug assertion is not compiled into a release
        // build, and the walk then has no index to follow.
        resultType := Some(PointerTo(sourceElementType));
      }
    }
    r := Ok(InstructionContext(instruction, block, functionRef, instruction.operands, kind, [], [], [], resultType));
  }

  /** With positionally named records and constant indices, the address
      computation's context succeeds exactly when the field path does, and
      its result type is a pointer to the field the path selects. */
  lemma GepResultFollowsFieldPath(instruction: Llvm.Value, block: Llvm.BlockRef, functionRef: Llvm.FunctionRef,
                                  isConditional: bool, support: Support, types: TypeContext, path: seq<int>)
    requires instruction.opcode == Llvm.GetElementPtr && |instruction.operands| >= 2
    requires GetElementPointer.AllPositional(types.structs)
    requires GetElementPointer.ConstantPath(instruction.operands[2..], path)
    ensures var r := Constructed(instruction, block, functionRef, isConditional, support, types);
      var field := GetElementPointer.FieldPath(types.structs, types.sourceElementType(instruction), path);
      (r.Ok? <==> field.Ok?) &&
      (r.Err? ==> r.error == field.error) &&
      (r.Ok? ==> r.value.resultType == Some(PointerTo(field.value)))
  {
    GetElementPointer.FinalTypeFollowsFieldPath(types.structs, types.sourceElementType(instruction),
                                                instruction.operands[2..], path);
  }

  /** The five conversions win over the unary and binary tests, whatever
      those tests say. */
  lemma ConversionsBeforeMath(opcode: Llvm.Opcode, isConditional: bool, support: Support)
    requires IsConversion(opcode)
    ensures CreateKind(opcode, isConditional, support) == NumericConversion
  {
  }

  /** A `br` splits on `IsConditional`. */
  lemma BranchSplit(isConditional: bool, support: Support)
    ensures CreateKind(Llvm.Br, isConditional, support) ==
            (if isConditional then ConditionalBranch else UnconditionalBranch)
  {
  }

  /** The defaults: unary math if supported, else binary math if supported,
      else the plain base context. */
  lemma UnmatchedOpcodes(opcode: Llvm.Opcode, isConditional: bool, support: Support)
    requires !IsConversion(opcode)
    requires opcode !in {Llvm.Alloca, Llvm.Load, Llvm.Store, Llvm.Call, Llvm.ICmp, Llvm.FCmp,
                         Llvm.Br, Llvm.Ret, Llvm.PHI, Llvm.GetElementPtr, Llvm.Switch}
    ensures CreateKind(opcode, isConditional, support) ==
            (if support.unary(opcode) then UnaryMath
             else if support.binary(opcode) then BinaryMath
             else Base)
  {
  }

  /** The older table is the newer one restricted to the opcodes both handle
      the same way: on every opcode except the five conversions and the
      opcodes the newer table added, the two agree up to renaming. */
  function FromNewer(k: InstructionContexts.Kind): Option<Kind>
  {
    match k
    case Alloca => Some(Alloca)
    case Load => Some(Load)
    case Store => Some(Store)
    case Call => Some(Call)
    case IntegerComparison => Some(IntegerComparison)
    case FloatComparison => Some(FloatComparison)
    case ConditionalBranch => Some(ConditionalBranch)
    case UnconditionalBranch => Some(UnconditionalBranch)
    case Return => Some(Return)
    case Phi => Some(Phi)
    case GetElementPointer => Some(GetElementPointer)
    case SwitchBranch => Some(SwitchBranch)
    case _ => None
  }

  lemma AgreesWithNewerTable(opcode: Llvm.Opcode, isConditional: bool, support: InstructionContexts.Support)
    requires !IsConversion(opcode)
    requires FromNewer(InstructionContexts.Create(opcode, isConditional, support)).Some?
    ensures CreateKind(opcode, isConditional, Support(support.unary, support.binary)) ==
            FromNewer(InstructionContexts.Create(opcode, isConditional, support)).value
  {
  }
}
