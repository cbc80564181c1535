/** Block construction (`BasicBlockContext.Create`): each source
    instruction is preceded by the instructions synthesized for the constant
    expressions among its operands, found with an explicit work stack. */
module BasicBlocks {
  import Llvm
  import opened Wrappers
  import opened Seqs
  import opened LegacyInstructionContexts

  /** The work stack (`Stack<InstructionContext>`); `items` holds the bottom
      first, and enumeration yields the top first. */
  class WorkStack {
    var items: seq<InstructionContext>

    constructor ()
      ensures items == []
    {
      items := [];
    }

    method Push(x: InstructionContext)
      modifies this
      ensures items == old(items) + [x]
    {
      items := items + [x];
    }

    function Peek(): (top: InstructionContext)
      reads this
      requires items != []
      ensures top == items[|items| - 1]
    {
      items[|items| - 1]
    }

    /** The order in which `foreach` (and so `AddRange`) sees the stack. */
    function Enumerate(): (s: seq<InstructionContext>)
      reads this
      ensures s == Reverse(items)
    {
      Reverse(items)
    }

    method Clear()
      modifies this
      ensures items == []
    {
      items := [];
    }
  }

  /** What the frontend answers about a value: whether a `br` is conditional. */
  type Conditional = Llvm.Value -> bool

  /** Everything the construction of one context reads besides the value:
      the enclosing block and function, and the frontend's answers. */
  datatype Frontend = Frontend(block: Llvm.BlockRef, fn: Llvm.FunctionRef, cond: Conditional,
                               support: Support, types: TypeContext)

  /** A way of building the context of a value, or of failing to. */
  type Builder = Llvm.Value -> Result<InstructionContext>

  /** The context `Create` builds for a value, or the exception its
      constructor throws. */
  function Build(f: Frontend): Builder
  {
    v => Constructed(v, f.block, f.fn, f.cond(v), f.support, f.types)
  }

  /** The contexts of `vs`, built in order: the first construction that
      throws ends the sequence with its exception. */
  function BuildAll(vs: seq<Llvm.Value>, build: Builder): Result<seq<InstructionContext>>
  {
    if |vs| == 0 then Ok([])
    else match BuildAll(vs[..|vs| - 1], build)
      case Err(e) => Err(e)
      case Ok(p) =>
        match build(vs[|vs| - 1])
        case Err(e) => Err(e)
        case Ok(c) => Ok(p + [c])
  }

  /** Building succeeds exactly when every value builds, and then yields
      their contexts in order; otherwise it fails with the exception of the
      first value that does not build. */
  lemma {:induction false} BuildAllSpec(vs: seq<Llvm.Value>, build: Builder)
    ensures var r := BuildAll(vs, build);
      (r.Ok? <==> forall k :: 0 <= k < |vs| ==> build(vs[k]).Ok?) &&
      (r.Ok? ==> |r.value| == |vs| && forall k :: 0 <= k < |vs| ==> build(vs[k]) == Ok(r.value[k])) &&
      (r.Err? ==> exists k :: 0 <= k < |vs| && build(vs[k]) == Err(r.error) &&
                              forall j :: 0 <= j < k ==> build(vs[j]).Ok?)
  {
    if |vs| > 0 {
      var init := vs[..|vs| - 1];
      BuildAllSpec(init, build);
      var r := BuildAll(vs, build);
      var ri := BuildAll(init, build);
      if ri.Err? {
        var k :| 0 <= k < |init| && build(init[k]) == Err(ri.error) &&
                 forall j :: 0 <= j < k ==> build(init[j]).Ok?;
        assert build(vs[k]) == Err(r.error);
      } else if r.Err? {
        assert build(vs[|vs| - 1]) == Err(r.error);
      } else {
        forall k | 0 <= k < |vs| ensures build(vs[k]) == Ok(r.value[k]) {
          if k < |init| {
            assert vs[k] == init[k];
          }
        }
      }
    }
  }

  /** Building a concatenation: the first part, then the second, the first
      exception winning. */
  lemma {:induction false} BuildAllAppend(a: seq<Llvm.Value>, b: seq<Llvm.Value>, build: Builder)
    ensures BuildAll(a + b, build) ==
      match BuildAll(a, build)
      case Err(e) => Err(e)
      case Ok(p) => (match BuildAll(b, build) case Err(e) => Err(e) case Ok(q) => Ok(p + q))
    decreases |b|
  {
    if |b| == 0 {
      assert a + b == a;
      if BuildAll(a, build).Ok? {
        assert BuildAll(a, build).value + [] == BuildAll(a, build).value;
      }
    } else {
      var init := b[..|b| - 1];
      assert (a + b)[..|a + b| - 1] == a + init;
      assert (a + b)[|a + b| - 1] == b[|b| - 1];
      BuildAllAppend(a, init, build);
      var ra, ri := BuildAll(a, build), BuildAll(init, build);
      if ra.Ok? && ri.Ok? && build(b[|b| - 1]).Ok? {
        assert (ra.value + ri.value) + [build(b[|b| - 1]).value] == ra.value + (ri.value + [build(b[|b| - 1]).value]);
      }
    }
  }

  /** Reversing what is built reverses the contexts. */
  lemma BuildAllReverse(vs: seq<Llvm.Value>, build: Builder)
    requires BuildAll(vs, build).Ok?
    ensures BuildAll(Reverse(vs), build) == Ok(Reverse(BuildAll(vs, build).value))
  {
    var r := Reverse(vs);
    var cs := BuildAll(vs, build).value;
    BuildAllSpec(vs, build);
    BuildAllSpec(r, build);
    forall k | 0 <= k < |r| ensures build(r[k]) == Ok(Reverse(cs)[k]) {
      assert r[k] == vs[|vs| - 1 - k];
    }
    var rr := BuildAll(r, build);
    assert rr.Ok?;
    assert rr.value == Reverse(cs) by {
      forall k | 0 <= k < |r| ensures rr.value[k] == Reverse(cs)[k] {
        assert build(r[k]) == Ok(rr.value[k]);
      }
    }
  }

  /** The values whose contexts are pushed for operand list `ops`:
      operands are visited from last to first, each constant expression
      pushed and then its own operands, the same way. */
  function PushOrder(ops: seq<Llvm.Value>): seq<Llvm.Value>
    decreases ops
  {
    if |ops| == 0 then []
    else PushOne(ops[|ops| - 1]) + PushOrder(ops[..|ops| - 1])
  }

  function PushOne(o: Llvm.Value): seq<Llvm.Value>
    decreases o
  {
    if o.kind.ConstantExprValue? then [o] + PushOrder(o.operands) else []
  }

  /** The post-order of the constant-expression operand tree: operands in
      ascending order, each expression after its own sub-expressions. */
  function PostOrder(ops: seq<Llvm.Value>): seq<Llvm.Value>
    decreases ops
  {
    if |ops| == 0 then []
    else PostOrder(ops[..|ops| - 1]) + PostOne(ops[|ops| - 1])
  }

  function PostOne(o: Llvm.Value): seq<Llvm.Value>
    decreases o
  {
    if o.kind.ConstantExprValue? then PostOrder(o.operands) + [o] else []
  }

  /** What one source instruction puts on the stack, bottom first. */
  function Pushed(instruction: Llvm.Value): seq<Llvm.Value>
  {
    [instruction] + PushOrder(instruction.operands)
  }

  /** The values one source instruction contributes to its block. */
  function Entries(instruction: Llvm.Value): seq<Llvm.Value>
  {
    PostOrder(instruction.operands) + [instruction]
  }

  /** Everything pushed for `values`, in the order of the pushes. */
  function PushedAll(values: seq<Llvm.Value>): seq<Llvm.Value>
  {
    if |values| == 0 then [] else PushedAll(values[..|values| - 1]) + Pushed(values[|values| - 1])
  }

  /** The values of a block's instruction list built from `values`. */
  function EntriesAll(values: seq<Llvm.Value>): seq<Llvm.Value>
  {
    if |values| == 0 then [] else EntriesAll(values[..|values| - 1]) + Entries(values[|values| - 1])
  }

  /** Number of constant-expression nodes reachable from `ops` through
      constant expressions, repeats counted. */
  function ConstantExprCount(ops: seq<Llvm.Value>): nat
    decreases ops
  {
    if |ops| == 0 then 0
    else ConstantExprCount(ops[..|ops| - 1]) +
         (var o := ops[|ops| - 1]; if o.kind.ConstantExprValue? then 1 + ConstantExprCount(o.operands) else 0)
  }

  /** Enumerating what was pushed (last pushed first) is the post-order. */
  lemma {:induction false} PushOrderReversed(ops: seq<Llvm.Value>)
    ensures Reverse(PushOrder(ops)) == PostOrder(ops)
    decreases ops
  {
    if |ops| > 0 {
      var last := ops[|ops| - 1];
      PushOneReversed(last);
      PushOrderReversed(ops[..|ops| - 1]);
      ReverseAppend(PushOne(last), PushOrder(ops[..|ops| - 1]));
    }
  }

  lemma {:induction false} PushOneReversed(o: Llvm.Value)
    ensures Reverse(PushOne(o)) == PostOne(o)
    decreases o
  {
    if o.kind.ConstantExprValue? {
      PushOrderReversed(o.operands);
      ReverseAppend([o], PushOrder(o.operands));
    }
  }

  /** Every synthesized instruction is a constant expression, and there is
      one per constant-expression node, repeats counted. */
  lemma {:induction false} PostOrderShape(ops: seq<Llvm.Value>)
    ensures |PostOrder(ops)| == ConstantExprCount(ops)
    ensures forall e <- PostOrder(ops) :: e.kind.ConstantExprValue?
    decreases ops
  {
    if |ops| > 0 {
      var o := ops[|ops| - 1];
      PostOrderShape(ops[..|ops| - 1]);
      if o.kind.ConstantExprValue? {
        PostOrderShape(o.operands);
      }
    }
  }

  /** The entries added for one source instruction, once built: one more
      than its constant-expression nodes, the instruction's own context
      last, every context attributed to the block and function. */
  lemma EntriesShape(instruction: Llvm.Value, f: Frontend)
    requires BuildAll(Entries(instruction), Build(f)).Ok?
    ensures var e := BuildAll(Entries(instruction), Build(f)).value;
      |e| == 1 + ConstantExprCount(instruction.operands) &&
      e[|e| - 1].instruction == instruction &&
      forall k :: 0 <= k < |e| ==> e[k].block == f.block && e[k].functionRef == f.fn
  {
    PostOrderShape(instruction.operands);
    var vs := Entries(instruction);
    BuildAllSpec(vs, Build(f));
    var e := BuildAll(vs, Build(f)).value;
    assert Build(f)(vs[|vs| - 1]) == Ok(e[|e| - 1]);
    forall k | 0 <= k < |e| ensures e[k].block == f.block && e[k].functionRef == f.fn {
      assert Build(f)(vs[k]) == Ok(e[k]);
    }
  }

  /** What the stack holds after one source instruction, enumerated, is
      that instruction's entries. */
  lemma EntriesFromStack(instruction: Llvm.Value)
    ensures Reverse(Pushed(instruction)) == Entries(instruction)
  {
    PushOrderReversed(instruction.operands);
    ReverseAppend([instruction], PushOrder(instruction.operands));
  }

  /** Splitting the operand list at `i`: the higher operands are pushed first. */
  lemma {:induction false} PushOrderSplit(ops: seq<Llvm.Value>, i: nat)
    requires i < |ops|
    ensures PushOrder(ops[i..]) == PushOrder(ops[i + 1..]) + PushOne(ops[i])
    decreases |ops| - i
  {
    var tail := ops[i..];
    if i + 1 == |ops| {
      assert tail[..|tail| - 1] == [];
    } else {
      assert tail[..|tail| - 1] == ops[..|ops| - 1][i..];
      assert ops[i + 1..] == ops[i + 1..][..|ops[i + 1..]| - 1] + [ops[|ops| - 1]];
      PushOrderSplit(ops[..|ops| - 1], i);
      assert ops[..|ops| - 1][i + 1..] == ops[i + 1..][..|ops[i + 1..]| - 1];
    }
  }

  /** The whole operand list: the operands from `i` on are pushed before
      those below `i`. */
  lemma {:induction false} PushOrderPrefix(ops: seq<Llvm.Value>, i: nat)
    requires i <= |ops|
    ensures PushOrder(ops) == PushOrder(ops[i..]) + PushOrder(ops[..i])
    decreases |ops| - i
  {
    if i == |ops| {
      assert ops[i..] == [] && ops[..i] == ops;
    } else {
      PushOrderPrefix(ops, i + 1);
      PushOrderSplit(ops, i);
      assert ops[..i + 1][..i] == ops[..i];
    }
  }

  /** Both orders hold the same values, so one builds exactly when the other does. */
  lemma {:induction false} PushedAllEntriesAll(values: seq<Llvm.Value>)
    ensures forall v :: v in PushedAll(values) <==> v in EntriesAll(values)
  {
    if |values| > 0 {
      var last := values[|values| - 1];
      PushedAllEntriesAll(values[..|values| - 1]);
      EntriesFromStack(last);
      forall v | v in Pushed(last) ensures v in Entries(last) {
        var k :| 0 <= k < |Pushed(last)| && Pushed(last)[k] == v;
        assert Reverse(Pushed(last))[|Pushed(last)| - 1 - k] == v;
      }
      forall v | v in Entries(last) ensures v in Pushed(last) {
        var k :| 0 <= k < |Entries(last)| && Entries(last)[k] == v;
        assert Reverse(Pushed(last))[k] == v;
      }
    }
  }

  /** A block builds exactly when everything pushed for it builds. */
  lemma BuildsAlike(values: seq<Llvm.Value>, build: Builder)
    ensures BuildAll(PushedAll(values), build).Ok? <==> BuildAll(EntriesAll(values), build).Ok?
  {
    PushedAllEntriesAll(values);
    var p, e := PushedAll(values), EntriesAll(values);
    BuildAllSpec(p, build);
    BuildAllSpec(e, build);
    if BuildAll(p, build).Ok? {
      forall k | 0 <= k < |e| ensures build(e[k]).Ok? {
        assert e[k] in p;
        var j :| 0 <= j < |p| && p[j] == e[k];
      }
    }
    if BuildAll(e, build).Ok? {
      forall k | 0 <= k < |p| ensures build(p[k]).Ok? {
        assert p[k] in e;
        var j :| 0 <= j < |e| && e[j] == p[k];
      }
    }
  }

  /** One more source instruction appends what it pushes and its entries. */
  lemma BlockStep(values: seq<Llvm.Value>, k: nat)
    requires k < |values|
    ensures PushedAll(values[..k + 1]) == PushedAll(values[..k]) + Pushed(values[k])
    ensures EntriesAll(values[..k + 1]) == EntriesAll(values[..k]) + Entries(values[k])
  {
    assert values[..k + 1][..k] == values[..k];
  }

  /** An exception among the first `k` source instructions is the block's
      exception: later instructions are not reached. */
  lemma {:induction false} PrefixErrorIsFinal(values: seq<Llvm.Value>, k: nat, build: Builder)
    requires k <= |values|
    requires BuildAll(PushedAll(values[..k]), build).Err?
    ensures BuildAll(PushedAll(values), build) == BuildAll(PushedAll(values[..k]), build)
    decreases |values| - k
  {
    if k == |values| {
      assert values[..k] == values;
    } else {
      BlockStep(values, k);
      FirstErrorWins(PushedAll(values[..k]), Pushed(values[k]), build);
      PrefixErrorIsFinal(values, k + 1, build);
    }
  }

  /** An exception from a prefix is the block's exception. */
  lemma FirstErrorWins(a: seq<Llvm.Value>, b: seq<Llvm.Value>, build: Builder)
    requires BuildAll(a, build).Err?
    ensures BuildAll(a + b, build) == BuildAll(a, build)
  {
    BuildAllAppend(a, b, build);
  }

  /** A basic block: its source block, its function, its instruction list,
      and the block-graph edges the function fills in later. */
  class BasicBlockContext {
    const block: Llvm.BlockRef
    const functionRef: Llvm.FunctionRef
    var instructions: seq<InstructionContext>
    var predecessors: seq<BasicBlockContext>
    var successors: seq<BasicBlockContext>

    constructor (block: Llvm.BlockRef, functionRef: Llvm.FunctionRef)
      ensures this.block == block && this.functionRef == functionRef
      ensures instructions == [] && predecessors == [] && successors == []
    {
      this.block := block;
      this.functionRef := functionRef;
      instructions, predecessors, successors := [], [], [];
    }

    /** Pushes, for each operand from last to first that is a constant
        expression, a context for it followed by its own operands; the
        first constructor that throws stops the walk. (`build` is the
        builder `Build(f)` that the specification speaks of.) */
    static method MaybeAddOperandsToStack(context: InstructionContext, stack: WorkStack, f: Frontend,
                                          ghost build: Builder)
      returns (o: Outcome)
      requires build == Build(f)
      requires context.operands == context.instruction.operands
      requires context.block == f.block && context.functionRef == f.fn
      modifies stack
      ensures BuildAll(PushOrder(context.operands), build).Ok? ==>
        o == Pass && stack.items == old(stack.items) + BuildAll(PushOrder(context.operands), build).value
      ensures BuildAll(PushOrder(context.operands), build).Err? ==>
        o == Fail(BuildAll(PushOrder(context.operands), build).error)
      decreases context.instruction, 1
    {
      ghost var start := stack.items;
      var i := |context.operands|;
      while i > 0
        invariant 0 <= i <= |context.operands|
        invariant BuildAll(PushOrder(context.operands[i..]), build).Ok?
        invariant stack.items == start + BuildAll(PushOrder(context.operands[i..]), build).value
      {
        i := i - 1;
        o := PushOperand(context, i, stack, f, build, start);
        if o.Fail? {
          return;
        }
      }
      assert context.operands[0..] == context.operands;
      o := Pass;
    }

    /** `Create` for a value of the block: the context `build` gives it. */
    static method CreateContext(v: Llvm.Value, f: Frontend, ghost build: Builder) returns (r: Result<InstructionContext>)
      requires build == Build(f)
      ensures r == build(v)
      ensures r.Ok? ==> r.value.instruction == v && r.value.operands == v.operands &&
                        r.value.block == f.block && r.value.functionRef == f.fn
    {
      r := LegacyInstructionContexts.Create(v, f.block, f.fn, f.cond(v), f.support, f.types);
    }

    /** One iteration of the walk: operand `i`, when it is a constant
        expression, is pushed and then its own operands are walked. */
    static method PushOperand(context: InstructionContext, i: nat, stack: WorkStack, f: Frontend,
                              ghost build: Builder, ghost start: seq<InstructionContext>)
      returns (o: Outcome)
      requires build == Build(f)
      requires context.operands == context.instruction.operands
      requires context.block == f.block && context.functionRef == f.fn
      requires i < |context.operands|
      requires BuildAll(PushOrder(context.operands[i + 1..]), build).Ok?
      requires stack.items == start + BuildAll(PushOrder(context.operands[i + 1..]), build).value
      modifies stack
      ensures o.Fail? ==> BuildAll(PushOrder(context.operands), build) == Err(o.error)
      ensures o.Pass? ==>
        BuildAll(PushOrder(context.operands[i..]), build).Ok? &&
        stack.items == start + BuildAll(PushOrder(context.operands[i..]), build).value
      decreases context.instruction, 0
    {
      ghost var before := PushOrder(context.operands[i + 1..]);
      PushOrderSplit(context.operands, i);
      var operand := context.operands[i];
      if operand.kind.ConstantExprValue? {
        assert operand in context.instruction.operands;
        PushStep(before, operand, build);
        ghost var done := BuildAll(before, build).value;
        o := PushConstantExpression(operand, stack, f, build);
        if o.Fail? {
          StopAt(context.operands, i, build);
        } else {
          AppendAssoc(start, done, [build(operand).value] + BuildAll(PushOrder(operand.operands), build).value);
        }
      } else {
        assert before + [] == before;
        o := Pass;
      }
    }

    /** The walk's work for a constant-expression operand: its context is
        pushed, then its own operands are walked. */
    static method PushConstantExpression(operand: Llvm.Value, stack: WorkStack, f: Frontend, ghost build: Builder)
      returns (o: Outcome)
      requires build == Build(f)
      requires operand.kind.ConstantExprValue?
      modifies stack
      ensures build(operand).Err? ==> o == Fail(build(operand).error)
      ensures build(operand).Ok? && BuildAll(PushOrder(operand.operands), build).Err? ==>
        o == Fail(BuildAll(PushOrder(operand.operands), build).error)
      ensures build(operand).Ok? && BuildAll(PushOrder(operand.operands), build).Ok? ==>
        o == Pass &&
        stack.items == old(stack.items) + ([build(operand).value] + BuildAll(PushOrder(operand.operands), build).value)
      decreases operand, 2
    {
      var built := CreateContext(operand, f, build);
      if built.Err? {
        return Fail(built.error);
      }
      stack.Push(built.value);
      o := MaybeAddOperandsToStack(built.value, stack, f, build);
      if o.Pass? {
        assert stack.items == old(stack.items) + ([built.value] + BuildAll(PushOrder(operand.operands), build).value);
      }
    }

    /** One pass of the loop in `Create`: the instruction and what the
        stack collects for its operands, appended in enumeration order. */
    static method AddEntries(context: BasicBlockContext, stack: WorkStack, instruction: Llvm.Value, f: Frontend,
                             ghost build: Builder)
      returns (o: Outcome)
      requires build == Build(f)
      requires stack.items == []
      requires context.block == f.block && context.functionRef == f.fn
      modifies context`instructions, stack
      ensures BuildAll(Pushed(instruction), build).Err? ==> o == Fail(BuildAll(Pushed(instruction), build).error)
      ensures BuildAll(Pushed(instruction), build).Ok? ==>
        o == Pass && stack.items == [] && BuildAll(Entries(instruction), build).Ok? &&
        context.instructions == old(context.instructions) + BuildAll(Entries(instruction), build).value
    {
      PushStep([], instruction, build);
      assert [] + Pushed(instruction) == Pushed(instruction);
      var first := CreateContext(instruction, f, build);
      if first.Err? {
        return Fail(first.error);
      }
      stack.Push(first.value);
      o := MaybeAddOperandsToStack(stack.Peek(), stack, f, build);
      if o.Fail? {
        return;
      }
      ghost var inner := BuildAll(PushOrder(instruction.operands), build).value;
      assert [] + ([first.value] + inner) == [first.value] + inner;
      assert stack.items == BuildAll(Pushed(instruction), build).value;
      EntriesFromStack(instruction);
      BuildAllReverse(Pushed(instruction), build);
      assert stack.Enumerate() == BuildAll(Entries(instruction), build).value;
      context.instructions := context.instructions + stack.Enumerate();
      stack.Clear();
    }

    /** Builds the block's instruction list from the source instructions
        `values`, in order; the first constructor that throws aborts. */
    static method Create(block: Llvm.BlockRef, functionRef: Llvm.FunctionRef, values: seq<Llvm.Value>,
                         cond: Conditional, support: Support, types: TypeContext)
      returns (r: Result<BasicBlockContext>)
      ensures var built := BuildAll(PushedAll(values), Build(Frontend(block, functionRef, cond, support, types)));
        (r.Err? <==> built.Err?) && (r.Err? ==> r.error == built.error)
      ensures r.Ok? ==>
        var entries := BuildAll(EntriesAll(values), Build(Frontend(block, functionRef, cond, support, types)));
        fresh(r.value) && entries.Ok? &&
        r.value.block == block && r.value.functionRef == functionRef &&
        r.value.instructions == entries.value &&
        r.value.predecessors == [] && r.value.successors == []
    {
      var f := Frontend(block, functionRef, cond, support, types);
      var stack := new WorkStack();
      var context := new BasicBlockContext(block, functionRef);
      var o := AddInstructions(context, stack, values, f, Build(f));
      if o.Fail? {
        return Err(o.error);
      }
      r := Ok(context);
    }

    /** The loop of `Create`: the source instructions in order. */
    static method AddInstructions(context: BasicBlockContext, stack: WorkStack, values: seq<Llvm.Value>,
                                  f: Frontend, ghost build: Builder)
      returns (o: Outcome)
      requires build == Build(f)
      requires stack.items == [] && context.instructions == []
      requires context.block == f.block && context.functionRef == f.fn
      modifies context`instructions, stack
      ensures (o.Fail? <==> BuildAll(PushedAll(values), build).Err?) &&
              (o.Fail? ==> o.error == BuildAll(PushedAll(values), build).error)
      ensures o.Pass? ==>
        BuildAll(EntriesAll(values), build).Ok? && context.instructions == BuildAll(EntriesAll(values), build).value
    {
      for k := 0 to |values|
        invariant stack.items == []
        invariant BuildAll(PushedAll(values[..k]), build).Ok? && BuildAll(EntriesAll(values[..k]), build).Ok?
        invariant context.instructions == BuildAll(EntriesAll(values[..k]), build).value
      {
        o := AddEntries(context, stack, values[k], f, build);
        InstructionStep(values, k, build);
        if o.Fail? {
          return;
        }
      }
      assert values[..|values|] == values;
      o := Pass;
    }
  }

  /** Pushing one more context and then walking its operands: the first
      exception wins. */
  lemma PushStep(before: seq<Llvm.Value>, v: Llvm.Value, build: Builder)
    requires BuildAll(before, build).Ok?
    ensures var whole := BuildAll(before + ([v] + PushOrder(v.operands)), build);
      var inner := BuildAll(PushOrder(v.operands), build);
      (build(v).Err? ==> whole == Err(build(v).error)) &&
      (build(v).Ok? && inner.Err? ==> whole == Err(inner.error)) &&
      (build(v).Ok? && inner.Ok? ==>
         whole == Ok(BuildAll(before, build).value + ([build(v).value] + inner.value)))
  {
    BuildAllAppend(before, [v] + PushOrder(v.operands), build);
    BuildAllAppend([v], PushOrder(v.operands), build);
    assert [v][..0] == [];
    if build(v).Ok? {
      assert [] + [build(v).value] == [build(v).value];
    }
  }

  /** Source instruction `k` after the ones before it: an exception in
      what it pushes is the block's exception; otherwise its entries are
      appended. */
  lemma InstructionStep(values: seq<Llvm.Value>, k: nat, build: Builder)
    requires k < |values|
    requires BuildAll(PushedAll(values[..k]), build).Ok?
    ensures BuildAll(Pushed(values[k]), build).Err? ==>
      BuildAll(PushedAll(values), build) == Err(BuildAll(Pushed(values[k]), build).error)
    ensures BuildAll(Pushed(values[k]), build).Ok? ==> BuildAll(PushedAll(values[..k + 1]), build).Ok?
    ensures BuildAll(EntriesAll(values[..k]), build).Ok? && BuildAll(Entries(values[k]), build).Ok? ==>
      BuildAll(EntriesAll(values[..k + 1]), build) ==
      Ok(BuildAll(EntriesAll(values[..k]), build).value + BuildAll(Entries(values[k]), build).value)
  {
    BlockStep(values, k);
    BuildAllAppend(PushedAll(values[..k]), Pushed(values[k]), build);
    BuildAllAppend(EntriesAll(values[..k]), Entries(values[k]), build);
    if BuildAll(Pushed(values[k]), build).Err? {
      PrefixErrorIsFinal(values, k + 1, build);
    }
  }

  /** A failure while walking operand `i` is the failure of the whole walk. */
  lemma StopAt(ops: seq<Llvm.Value>, i: nat, build: Builder)
    requires i < |ops|
    requires BuildAll(PushOrder(ops[i..]), build).Err?
    ensures BuildAll(PushOrder(ops), build) == BuildAll(PushOrder(ops[i..]), build)
  {
    PushOrderPrefix(ops, i);
    FirstErrorWins(PushOrder(ops[i..]), PushOrder(ops[..i]), build);
  }
}
