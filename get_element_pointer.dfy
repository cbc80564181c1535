/** Address computation (`GetElementPointerInstructionContext`): the walk
    from the source element type through positionally named record fields,
    one constant index at a time. */
module GetElementPointer {
  import Llvm
  import opened Wrappers
  import opened Cil

  /** A field of a generated record type. */
  datatype FieldDefinition = FieldDefinition(name: string, fieldType: TypeSig)

  /** The record type definitions of the module, by type name. A name that
      is absent stands for a type reference that is not a definition. */
  type Structs = map<string, seq<FieldDefinition>>

  function DigitChar(d: nat): (c: char)
    requires d < 10
    ensures '0' <= c <= '9'
  {
    "0123456789"[d]
  }

  /** Decimal digits of `n`, most significant first. */
  function Digits(n: nat): (s: string)
    ensures |s| > 0 && forall c <- s :: '0' <= c <= '9'
  {
    if n < 10 then [DigitChar(n)] else Digits(n / 10) + [DigitChar(n % 10)]
  }

  /** How a 64-bit integer is formatted into an interpolated string. */
  function DecimalString(n: int): (s: string)
    ensures |s| > 0 && (s[0] == '-' <==> n < 0)
  {
    var digits := Digits(if n < 0 then -n else n);
    assert digits[0] in digits;
    if n < 0 then "-" + digits else digits
  }

  /** The name given to the field at position `k`. */
  function FieldName(k: int): string
  {
    "field_" + DecimalString(k)
  }

  lemma {:induction false} DigitsInjective(a: nat, b: nat)
    requires Digits(a) == Digits(b)
    ensures a == b
  {
    if a < 10 && b < 10 {
      assert "0123456789"[a] == "0123456789"[b];
    } else if a >= 10 && b >= 10 {
      var da, db := Digits(a), Digits(b);
      assert da[|da| - 1] == DigitChar(a % 10) && db[|db| - 1] == DigitChar(b % 10);
      assert "0123456789"[a % 10] == "0123456789"[b % 10];
      assert da[..|da| - 1] == Digits(a / 10) && db[..|db| - 1] == Digits(b / 10);
      DigitsInjective(a / 10, b / 10);
    }
  }

  /** Different positions never share a field name. */
  lemma FieldNameInjective(a: int, b: int)
    requires FieldName(a) == FieldName(b)
    ensures a == b
  {
    var sa, sb := DecimalString(a), DecimalString(b);
    assert sa == FieldName(a)[6..] && sb == FieldName(b)[6..];
    if a < 0 && b < 0 {
      assert sa[1..] == Digits(-a) && sb[1..] == Digits(-b);
      DigitsInjective(-a, -b);
    } else if a >= 0 && b >= 0 {
      DigitsInjective(a, b);
    }
  }

  /** `Fields.First(t => t.Name == name)`: the first field so named, or the
      no-match failure. */
  function FindField(fields: seq<FieldDefinition>, name: string): (r: Result<TypeSig>)
    ensures r.Ok? <==> exists j :: 0 <= j < |fields| && fields[j].name == name
    ensures r.Ok? ==> exists j :: 0 <= j < |fields| && fields[j].name == name && r.value == fields[j].fieldType &&
                                  forall i :: 0 <= i < j ==> fields[i].name != name
    ensures r.Err? ==> r.error == InvalidOperationException
  {
    if |fields| == 0 then Err(InvalidOperationException)
    else if fields[0].name == name then Ok(fields[0].fieldType)
    else
      var r := FindField(fields[1..], name);
      assert forall j :: 1 <= j < |fields| ==> fields[j] == fields[1..][j - 1];
      r
  }

  /** The fields of a generated record are named by their position. */
  predicate Positional(fields: seq<FieldDefinition>)
  {
    forall j :: 0 <= j < |fields| ==> fields[j].name == FieldName(j)
  }

  /** In a positional record, index `k` selects field `k`, and an index
      outside the record has no field. */
  lemma FieldByPosition(fields: seq<FieldDefinition>, k: int)
    requires Positional(fields)
    ensures FindField(fields, FieldName(k)) ==
            if 0 <= k < |fields| then Ok(fields[k].fieldType) else Err(InvalidOperationException)
  {
    var r := FindField(fields, FieldName(k));
    if r.Ok? {
      var j :| 0 <= j < |fields| && fields[j].name == FieldName(k) && r.value == fields[j].fieldType;
      FieldNameInjective(j, k);
    }
  }

  /** One iteration of the walk: from the current type, through one index operand. */
  function Step(structs: Structs, current: TypeSig, operand: Llvm.Value): (r: Result<TypeSig>)
    ensures !current.TypeDefOrRef? ==> r == Err(NotSupportedException)
    ensures current.TypeDefOrRef? && current.name !in structs ==> r == Err(InvalidCastException)
    ensures current.TypeDefOrRef? && current.name in structs && !operand.kind.ConstantIntValue? ==>
              r == Err(NotSupportedException)
    ensures r.Ok? ==> current.TypeDefOrRef? && current.name in structs && operand.kind.ConstantIntValue?
  {
    match current
    case TypeDefOrRef(name) =>
      if name !in structs then Err(InvalidCastException)
      else if operand.kind.ConstantIntValue? then FindField(structs[name], FieldName(operand.kind.sext))
      else Err(NotSupportedException)
    case CorLib(_) => Err(NotSupportedException)
    case _ => Err(NotSupportedException)
  }

  /** The type reached by walking `indices` from `current`. */
  function FinalType(structs: Structs, current: TypeSig, indices: seq<Llvm.Value>): (r: Result<TypeSig>)
    ensures |indices| == 0 ==> r == Ok(current)
    ensures |indices| > 0 && !current.TypeDefOrRef? ==> r == Err(NotSupportedException)
    ensures r.Ok? ==> forall k :: 0 <= k < |indices| ==> indices[k].kind.ConstantIntValue?
    decreases |indices|
  {
    if |indices| == 0 then Ok(current)
    else match Step(structs, current, indices[0])
      case Err(e) => Err(e)
      case Ok(next) => FinalType(structs, next, indices[1..])
  }

  /** An independent account of a walk along constant field positions. */
  function FieldPath(structs: Structs, current: TypeSig, path: seq<int>): Result<TypeSig>
    decreases |path|
  {
    if |path| == 0 then Ok(current)
    else if !current.TypeDefOrRef? then Err(NotSupportedException)
    else if current.name !in structs then Err(InvalidCastException)
    else if !(0 <= path[0] < |structs[current.name]|) then Err(InvalidOperationException)
    else FieldPath(structs, structs[current.name][path[0]].fieldType, path[1..])
  }

  /** Every record of the module has positional fields. */
  predicate AllPositional(structs: Structs)
  {
    forall name :: name in structs ==> Positional(structs[name])
  }

  /** Constant index operands carrying the integers of `path`. */
  predicate ConstantPath(indices: seq<Llvm.Value>, path: seq<int>)
  {
    |indices| == |path| &&
    forall k :: 0 <= k < |indices| ==> indices[k].kind == Llvm.ConstantIntValue(path[k])
  }

  /** With positional records and constant indices, the walk selects field
      `path[0]`, then `path[1]` of its type, and so on: the final type is
      determined by the record layouts and the index path alone. */
  lemma {:induction false} FinalTypeFollowsFieldPath(structs: Structs, current: TypeSig,
                                                     indices: seq<Llvm.Value>, path: seq<int>)
    requires AllPositional(structs)
    requires ConstantPath(indices, path)
    ensures FinalType(structs, current, indices) == FieldPath(structs, current, path)
    decreases |path|
  {
    if |indices| > 0 && current.TypeDefOrRef? && current.name in structs {
      FieldByPosition(structs[current.name], path[0]);
      if 0 <= path[0] < |structs[current.name]| {
        FinalTypeFollowsFieldPath(structs, structs[current.name][path[0]].fieldType, indices[1..], path[1..]);
      }
    }
  }

  /** `CalculateFinalType`: start at the source element type, skip the
      pointer (operand 0) and the stride index (operand 1), and walk the rest. */
  method CalculateFinalType(structs: Structs, sourceElementType: TypeSig, operands: seq<Llvm.Value>)
    returns (r: Result<TypeSig>)
    requires |operands| >= 2
    ensures r == FinalType(structs, sourceElementType, operands[2..])
    ensures |operands| == 2 ==> r == Ok(sourceElementType)
  {
    var currentType := sourceElementType;
    for i := 2 to |operands|
      invariant FinalType(structs, sourceElementType, operands[2..]) == FinalType(structs, currentType, operands[i..])
    {
      var operand := operands[i];
      assert operands[i..][1..] == operands[i + 1..];
      match currentType {
        case TypeDefOrRef(name) =>
          if name !in structs {
            return Err(InvalidCastException);
          }
          if operand.kind.ConstantIntValue? {
            var index := operand.kind.sext;
            var fieldName := FieldName(index);
            var field := FindField(structs[name], fieldName);
            if field.Err? {
              return Err(field.error);
            }
            currentType := field.value;
          } else {
            return Err(NotSupportedException);
          }
        case CorLib(_) =>
          return Err(NotSupportedException);
        case _ =>
          return Err(NotSupportedException);
      }
    }
    r := Ok(currentType);
  }

  /** What the constructor fixes. */
  datatype GetElementPointerContext = GetElementPointerContext(
    sourceOperand: Llvm.Value,
    indexOperands: seq<Llvm.Value>,
    sourceElementType: TypeSig,
    finalType: TypeSig,
    resultType: TypeSig)

  /** The constructor: at least two operands, the final type of the walk,
      and a pointer to it as the result type; a failed walk aborts. */
  method NewGetElementPointer(structs: Structs, sourceElementType: TypeSig, operands: seq<Llvm.Value>)
    returns (r: Result<GetElementPointerContext>)
    requires |operands| >= 2
    ensures r.Ok? <==> FinalType(structs, sourceElementType, operands[2..]).Ok?
    ensures r.Err? ==> r.error == FinalType(structs, sourceElementType, operands[2..]).error
    ensures r.Ok? ==>
      r.value.sourceOperand == operands[0] && r.value.indexOperands == operands[1..] &&
      r.value.sourceElementType == sourceElementType &&
      r.value.finalType == FinalType(structs, sourceElementType, operands[2..]).value &&
      r.value.resultType == PointerTo(r.value.finalType)
  {
    var finalType := CalculateFinalType(structs, sourceElementType, operands);
    match finalType {
      case Err(e) => r := Err(e);
      case Ok(t) => r := Ok(GetElementPointerContext(operands[0], operands[1..], sourceElementType, t, PointerTo(t)));
    }
  }
}
