/** A translated function (`FunctionContext` of the IR translator): its
    blocks and instructions held in positional arenas, the lookups from
    source blocks and values to positions, the labels, the control-flow
    links, and the data-flow lists filled by `AnalyzeDataFlow`. */
module FunctionContexts {
  import opened Wrappers
  import opened Seqs
  import opened Llvm
  import opened Cil
  import opened Names
  import opened FunctionNames
  import opened BlockGraph
  import opened DataFlow

  /** An LLVM type, by identity. */
  type TypeRef = nat

  /** A parameter attribute; a type attribute carries its type. */
  datatype Attribute = TypeAttribute(typeValue: TypeRef) | OtherAttribute(tag: nat)

  /** A parameter: whether its type is a pointer, and its attributes. */
  datatype Parameter = Parameter(isPointer: bool, attributes: seq<Attribute>)

  /** A source block: its identity, the contexts of its instructions (built
      by the block translation, which is not part of this model) and the
      blocks its terminator names as successors. */
  datatype BlockInput = BlockInput(ref: BlockRef, instructions: seq<Node>, successors: seq<BlockRef>)

  /** What `Create` reads from the source function. */
  datatype FunctionInput = FunctionInput(
    mangledName: string,
    demangledName: Option<string>,
    isVoidReturn: bool,
    parameters: seq<Parameter>,
    blocks: seq<BlockInput>)

  predicate Distinct<K(==)>(keys: seq<K>)
  {
    forall i, j :: 0 <= i < j < |keys| ==> keys[i] != keys[j]
  }

  /** The dictionary filled by adding `keys[0]`, `keys[1]`, ... with their
      positions as values (a repeated key keeps its last position). */
  function PositionMap<K(==)>(keys: seq<K>): (m: map<K, nat>)
    ensures m.Keys == set k | k in keys
    ensures forall k :: k in m ==> m[k] < |keys| && keys[m[k]] == k
  {
    if |keys| == 0 then map[]
    else PositionMap(keys[..|keys| - 1])[keys[|keys| - 1] := |keys| - 1]
  }

  lemma PositionMapSnoc<K>(keys: seq<K>, k: K)
    ensures PositionMap(keys + [k]) == PositionMap(keys)[k := |keys|]
  {
    assert (keys + [k])[..|keys|] == keys;
  }

  /** Without repeats, the dictionary sends each key to its own position. */
  lemma PositionMapIndexes<K>(keys: seq<K>)
    requires Distinct(keys)
    ensures forall i :: 0 <= i < |keys| ==> keys[i] in PositionMap(keys) && PositionMap(keys)[keys[i]] == i
  {
    forall i | 0 <= i < |keys|
      ensures PositionMap(keys)[keys[i]] == i
    {
      var j := PositionMap(keys)[keys[i]];
      assert keys[j] == keys[i];
    }
  }

  /** A key not yet present keeps the keys distinct. */
  lemma DistinctSnoc<K>(keys: seq<K>, k: K)
    requires Distinct(keys) && k !in PositionMap(keys)
    ensures Distinct(keys + [k])
  {
  }

  /** A key already present at a lower position is a repeat. */
  lemma RepeatedKey<K>(keys: seq<K>, i: nat)
    requires i < |keys| && keys[i] in PositionMap(keys[..i])
    ensures !Distinct(keys)
  {
    var j := PositionMap(keys[..i])[keys[i]];
    assert keys[j] == keys[..i][j];
  }

  /** The instruction dictionary of distinct values indexes the list. */
  lemma PositionMapLookupIndexes(nodes: seq<Node>)
    requires Distinct(Values(nodes))
    ensures LookupIndexes(PositionMap(Values(nodes)), nodes)
  {
    PositionMapIndexes(Values(nodes));
    var lookup := PositionMap(Values(nodes));
    forall v | v in lookup
      ensures lookup[v] < |nodes| && nodes[lookup[v]].value == v
    {
      assert Values(nodes)[lookup[v]] == v;
    }
    forall x | 0 <= x < |nodes|
      ensures nodes[x].value in lookup
    {
      assert Values(nodes)[x] in lookup;
    }
  }

  function Refs(blocks: seq<BlockInput>): (r: seq<BlockRef>)
    ensures |r| == |blocks| && forall i :: 0 <= i < |blocks| ==> r[i] == blocks[i].ref
  {
    seq(|blocks|, i requires 0 <= i < |blocks| => blocks[i].ref)
  }

  function Values(nodes: seq<Node>): (r: seq<ValueId>)
    ensures |r| == |nodes| && forall i :: 0 <= i < |nodes| ==> r[i] == nodes[i].value
  {
    seq(|nodes|, i requires 0 <= i < |nodes| => nodes[i].value)
  }

  /** The function's instruction list: the blocks' lists one after another. */
  function Concat(blocks: seq<BlockInput>): seq<Node>
  {
    if |blocks| == 0 then []
    else Concat(blocks[..|blocks| - 1]) + blocks[|blocks| - 1].instructions
  }

  lemma {:induction false} ConcatAppend(a: seq<BlockInput>, b: seq<BlockInput>)
    ensures Concat(a + b) == Concat(a) + Concat(b)
  {
    if |b| == 0 {
      assert a + b == a;
    } else {
      var b' := b[..|b| - 1];
      assert (a + b)[..|a + b| - 1] == a + b';
      ConcatAppend(a, b');
    }
  }

  /** The instructions of block `i` sit contiguously in the function's list,
      right after those of the blocks before it. */
  lemma BlockSlice(blocks: seq<BlockInput>, i: nat)
    requires i < |blocks|
    ensures var start := |Concat(blocks[..i])|;
      start + |blocks[i].instructions| <= |Concat(blocks)| &&
      Concat(blocks)[start..start + |blocks[i].instructions|] == blocks[i].instructions
  {
    assert blocks == blocks[..i] + [blocks[i]] + blocks[i + 1..];
    ConcatAppend(blocks[..i] + [blocks[i]], blocks[i + 1..]);
    ConcatAppend(blocks[..i], [blocks[i]]);
    assert [blocks[i]][..0] == [];
  }

  /** Every successor names a block of the function. */
  predicate SuccessorsKnown(blocks: seq<BlockInput>)
  {
    forall i, k :: 0 <= i < |blocks| && 0 <= k < |blocks[i].successors| ==>
      blocks[i].successors[k] in Refs(blocks)
  }

  function ResolveTargets(lookup: map<BlockRef, nat>, successors: seq<BlockRef>): (r: seq<nat>)
    requires forall s :: s in successors ==> s in lookup
    ensures |r| == |successors| && forall k :: 0 <= k < |successors| ==> r[k] == lookup[successors[k]]
  {
    seq(|successors|, k requires 0 <= k < |successors| => lookup[successors[k]])
  }

  function ResolvedWith(lookup: map<BlockRef, nat>, blocks: seq<BlockInput>): (r: seq<seq<nat>>)
    requires forall i, s :: 0 <= i < |blocks| && s in blocks[i].successors ==> s in lookup
    ensures |r| == |blocks| && forall i :: 0 <= i < |blocks| ==> r[i] == ResolveTargets(lookup, blocks[i].successors)
  {
    seq(|blocks|, i requires 0 <= i < |blocks| => ResolveTargets(lookup, blocks[i].successors))
  }

  /** The positions of each block's successors. */
  function Resolved(blocks: seq<BlockInput>): seq<seq<nat>>
    requires SuccessorsKnown(blocks)
  {
    ResolvedWith(PositionMap(Refs(blocks)), blocks)
  }

  /** The exception `Create` ends with, if any: the clean name first, then
      a block added twice to `BasicBlockLookup`, then an instruction value
      added twice to `InstructionLookup`, then a successor missing from
      `BasicBlockLookup`. */
  function CreateError(input: FunctionInput, renamedSymbols: map<string, string>,
                       names: NameGenerator, parse: Parser): Option<Exn>
  {
    var name := ExtractCleanName(input.mangledName, input.demangledName, renamedSymbols, names, parse);
    if name.Err? then Some(name.error)
    else if !Distinct(Refs(input.blocks)) then Some(ArgumentException)
    else if !Distinct(Values(Concat(input.blocks))) then Some(ArgumentException)
    else if !SuccessorsKnown(input.blocks) then Some(KeyNotFoundException)
    else None
  }

  /** The first type attribute of a list, if any. */
  function FirstTypeAttribute(attributes: seq<Attribute>): (r: Option<TypeRef>)
    ensures r.Some? <==> exists i :: 0 <= i < |attributes| && attributes[i].TypeAttribute?
    ensures r.Some? ==> exists i :: (0 <= i < |attributes| && attributes[i] == TypeAttribute(r.value)
      && forall j :: 0 <= j < i ==> !attributes[j].TypeAttribute?)
  {
    if |attributes| == 0 then None
    else if attributes[0].TypeAttribute? then
      Some(attributes[0].typeValue)
    else
      var r := FirstTypeAttribute(attributes[1..]);
      assert forall i :: 0 < i < |attributes| ==> attributes[i] == attributes[1..][i - 1];
      if r.Some? then
        var i :| (0 <= i < |attributes[1..]| && attributes[1..][i] == TypeAttribute(r.value)
          && forall j :: 0 <= j < i ==> !attributes[1..][j].TypeAttribute?);
        assert attributes[i + 1] == TypeAttribute(r.value);
        r
      else
        r
  }

  /** The type a struct-returning function returns through its first
      parameter: only for a void function whose parameter 0 is a pointer,
      and then the type of that parameter's first type attribute. */
  function StructReturnType(isVoidReturn: bool, parameters: seq<Parameter>): (r: Option<TypeRef>)
    ensures r.Some? ==> isVoidReturn && |parameters| > 0 && parameters[0].isPointer
    ensures r.Some? ==> r == FirstTypeAttribute(parameters[0].attributes)
    ensures isVoidReturn && |parameters| > 0 && parameters[0].isPointer ==>
              r == FirstTypeAttribute(parameters[0].attributes)
  {
    if !isVoidReturn || |parameters| == 0 || !parameters[0].isPointer then None
    else FirstTypeAttribute(parameters[0].attributes)
  }

  /** Each instruction position holds the instruction of the value the
      lookup sends there, and every instruction's value is in the lookup. */
  predicate LookupIndexes(lookup: map<ValueId, nat>, nodes: seq<Node>)
  {
    (forall v :: v in lookup ==> lookup[v] < |nodes| && nodes[lookup[v]].value == v) &&
    (forall x :: 0 <= x < |nodes| ==> nodes[x].value in lookup)
  }

  /** `SourceInstruction` of every instruction once the first `x` are visited:
      a load's is what its address resolves to; the others keep `initial`. */
  function LoadSources(lookup: map<ValueId, nat>, nodes: seq<Node>, initial: seq<Option<nat>>, x: nat): (r: seq<Option<nat>>)
    requires |initial| == |nodes|
    ensures |r| == |nodes|
    ensures forall y :: 0 <= y < |nodes| ==> r[y] == (if y < x && nodes[y].role.LoadRole? then Resolve(lookup, nodes[y].role.source) else initial[y])
  {
    seq(|nodes|, y requires 0 <= y < |nodes| =>
      if y < x && nodes[y].role.LoadRole? then Resolve(lookup, nodes[y].role.source) else initial[y])
  }

  /** `DestinationInstruction` of every instruction once the first `x` are
      visited: a store's is what its destination resolves to. */
  function StoreDestinations(lookup: map<ValueId, nat>, nodes: seq<Node>, initial: seq<Option<nat>>, x: nat): (r: seq<Option<nat>>)
    requires |initial| == |nodes|
    ensures |r| == |nodes|
    ensures forall y :: 0 <= y < |nodes| ==> r[y] == (if y < x && nodes[y].role.StoreRole? then Resolve(lookup, nodes[y].role.destination) else initial[y])
  {
    seq(|nodes|, y requires 0 <= y < |nodes| =>
      if y < x && nodes[y].role.StoreRole? then Resolve(lookup, nodes[y].role.destination) else initial[y])
  }

  lemma AddBlocksStep(blocks: seq<BlockInput>, i: nat)
    requires i < |blocks|
    ensures Refs(blocks)[..i + 1] == Refs(blocks)[..i] + [blocks[i].ref]
    ensures Concat(blocks[..i + 1]) == Concat(blocks[..i]) + blocks[i].instructions
  {
    assert blocks[..i + 1][..i] == blocks[..i];
  }

  lemma EdgesSnoc(lookup: map<ValueId, nat>, nodes: seq<Node>, x: nat)
    requires x < |nodes|
    ensures Edges(lookup, nodes[..x + 1]) == Edges(lookup, nodes[..x]) + InstructionEdges(lookup, nodes[x], x)
  {
    assert nodes[..x + 1][..x] == nodes[..x];
  }

  lemma VisitStep(lookup: map<ValueId, nat>, nodes: seq<Node>, src: seq<Option<nat>>, dst: seq<Option<nat>>, x: nat)
    requires x < |nodes| && |src| == |nodes| && |dst| == |nodes|
    ensures LoadSources(lookup, nodes, src, x + 1) == (
      if nodes[x].role.LoadRole? then LoadSources(lookup, nodes, src, x)[x := Resolve(lookup, nodes[x].role.source)]
      else LoadSources(lookup, nodes, src, x))
    ensures StoreDestinations(lookup, nodes, dst, x + 1) == (
      if nodes[x].role.StoreRole? then StoreDestinations(lookup, nodes, dst, x)[x := Resolve(lookup, nodes[x].role.destination)]
      else StoreDestinations(lookup, nodes, dst, x))
  {
  }

  /** `Labels` after a fresh label was stored for each of the first `i`
      blocks of `refs` in turn; the label of a block is made from its
      position. */
  function LabelMap(refs: seq<BlockRef>, lookup: map<BlockRef, nat>, i: nat): map<BlockRef, Label>
    requires i <= |refs| && forall j :: 0 <= j < |refs| ==> refs[j] in lookup
  {
    if i == 0 then map[]
    else LabelMap(refs, lookup, i - 1)[refs[i - 1] := Label(lookup[refs[i - 1]])]
  }

  lemma {:induction false} LabelMapSpec(refs: seq<BlockRef>, lookup: map<BlockRef, nat>, i: nat)
    requires i <= |refs| && forall j :: 0 <= j < |refs| ==> refs[j] in lookup
    ensures forall r :: r in LabelMap(refs, lookup, i) <==> exists j :: 0 <= j < i && refs[j] == r
    ensures forall r :: r in LabelMap(refs, lookup, i) ==> LabelMap(refs, lookup, i)[r] == Label(lookup[r])
  {
    if i > 0 {
      LabelMapSpec(refs, lookup, i - 1);
    }
  }

  /** The sweep of `Create` after its first `i` blocks: their successors
      are all known, and `arcs` holds their arcs in order. */
  ghost predicate SweptUpTo(blocks: seq<BlockInput>, lookup: map<BlockRef, nat>, i: nat, arcs: seq<Arc>)
  {
    i <= |blocks| &&
    (forall i', s :: 0 <= i' < i && s in blocks[i'].successors ==> s in lookup) &&
    arcs == AllArcs(ResolvedWith(lookup, blocks[..i]))
  }

  lemma SweepStep(blocks: seq<BlockInput>, lookup: map<BlockRef, nat>, i: nat, arcs: seq<Arc>)
    requires SweptUpTo(blocks, lookup, i, arcs) && i < |blocks|
    requires forall s :: s in blocks[i].successors ==> s in lookup
    ensures SweptUpTo(blocks, lookup, i + 1, arcs + ArcsFrom(i, ResolveTargets(lookup, blocks[i].successors)))
  {
    assert ResolvedWith(lookup, blocks[..i + 1])[..i] == ResolvedWith(lookup, blocks[..i]);
  }

  lemma MissingSuccessor(blocks: seq<BlockInput>, lookup: map<BlockRef, nat>, i: nat)
    requires lookup == PositionMap(Refs(blocks)) && i < |blocks|
    requires !forall s :: s in blocks[i].successors ==> s in lookup
    ensures !SuccessorsKnown(blocks)
  {
    var s :| s in blocks[i].successors && s !in lookup;
    var k :| 0 <= k < |blocks[i].successors| && blocks[i].successors[k] == s;
  }

  /** Once every block is linked, the sweep covered the whole list. */
  lemma AllSuccessorsLinked(blocks: seq<BlockInput>, lookup: map<BlockRef, nat>, arcs: seq<Arc>)
    requires lookup == PositionMap(Refs(blocks))
    requires SweptUpTo(blocks, lookup, |blocks|, arcs)
    ensures SuccessorsKnown(blocks)
    ensures arcs == AllArcs(Resolved(blocks))
  {
    assert blocks[..|blocks|] == blocks;
    forall i, k | 0 <= i < |blocks| && 0 <= k < |blocks[i].successors|
      ensures blocks[i].successors[k] in Refs(blocks)
    {
      assert blocks[i].successors[k] in blocks[i].successors;
      assert blocks[i].successors[k] in lookup.Keys;
    }
  }

  /** With the lookup `Create` builds, a phi or any other instruction is in
      the `Accessors` of instruction `t` once per occurrence of `t`'s value
      among its operands. */
  lemma AccessorsCountOperandOccurrences(lookup: map<ValueId, nat>, nodes: seq<Node>, x: nat, t: nat)
    requires LookupIndexes(lookup, nodes) && Distinct(Values(nodes))
    requires x < |nodes| && t < |nodes| && (nodes[x].role.PhiRole? || nodes[x].role.OtherRole?)
    ensures Count(Targets(Edges(lookup, nodes), AccessorEdge, t), x) == Count(nodes[x].operands, nodes[t].value)
  {
    var v := nodes[t].value;
    assert v in lookup;
    assert Values(nodes)[lookup[v]] == Values(nodes)[t];
    assert lookup[v] == t;
    forall u | u in lookup && lookup[u] == lookup[v]
      ensures u == v
    {
      assert nodes[lookup[u]].value == u;
    }
    AccessorEdgesOfOthers(lookup, nodes, x, t);
    ResolvingCountByValue(lookup, nodes[x].operands, v);
  }

  class FunctionContext {
    const mangledName: string
    const demangledName: Option<string>
    const cleanName: string
    const isVoidReturn: bool
    const parameters: seq<Parameter>

    /** `BasicBlocks`, by source block. */
    var basicBlocks: seq<BlockRef>
    var instructions: seq<Node>
    var labels: map<BlockRef, Label>
    var instructionLookup: map<ValueId, nat>
    var basicBlockLookup: map<BlockRef, nat>
    /** Per block position: the `Successors` and `Predecessors` lists. */
    var successors: seq<seq<nat>>
    var predecessors: seq<seq<nat>>
    /** Per instruction position: the `Loads`, `Stores` and `Accessors`
        lists, and the `SourceInstruction` of a load and the
        `DestinationInstruction` of a store. */
    var loads: seq<seq<nat>>
    var stores: seq<seq<nat>>
    var accessors: seq<seq<nat>>
    var sourceInstruction: seq<Option<nat>>
    var destinationInstruction: seq<Option<nat>>

    ghost predicate Valid()
      reads this
    {
      |successors| == |basicBlocks| && |predecessors| == |basicBlocks| &&
      |loads| == |instructions| && |stores| == |instructions| && |accessors| == |instructions| &&
      |sourceInstruction| == |instructions| && |destinationInstruction| == |instructions| &&
      LookupIndexes(instructionLookup, instructions)
    }

    constructor (input: FunctionInput, cleanName: string, basicBlocks: seq<BlockRef>, instructions: seq<Node>,
                 labels: map<BlockRef, Label>, instructionLookup: map<ValueId, nat>,
                 basicBlockLookup: map<BlockRef, nat>, successors: seq<seq<nat>>, predecessors: seq<seq<nat>>)
      ensures this.mangledName == input.mangledName && this.demangledName == input.demangledName
      ensures this.isVoidReturn == input.isVoidReturn && this.parameters == input.parameters
      ensures this.cleanName == cleanName && this.basicBlocks == basicBlocks
      ensures this.instructions == instructions && this.labels == labels
      ensures this.instructionLookup == instructionLookup && this.basicBlockLookup == basicBlockLookup
      ensures this.successors == successors && this.predecessors == predecessors
      ensures |loads| == |instructions| && |stores| == |instructions| && |accessors| == |instructions|
      ensures |sourceInstruction| == |instructions| && |destinationInstruction| == |instructions|
      ensures forall x :: 0 <= x < |instructions| ==> loads[x] == [] && stores[x] == [] && accessors[x] == []
      ensures forall x :: 0 <= x < |instructions| ==> sourceInstruction[x].None? && destinationInstruction[x].None?
    {
      this.mangledName := input.mangledName;
      this.demangledName := input.demangledName;
      this.isVoidReturn := input.isVoidReturn;
      this.parameters := input.parameters;
      this.cleanName := cleanName;
      this.basicBlocks := basicBlocks;
      this.instructions := instructions;
      this.labels := labels;
      this.instructionLookup := instructionLookup;
      this.basicBlockLookup := basicBlockLookup;
      this.successors := successors;
      this.predecessors := predecessors;
      loads := seq(|instructions|, _ => []);
      stores := seq(|instructions|, _ => []);
      accessors := seq(|instructions|, _ => []);
      sourceInstruction := seq(|instructions|, _ => None);
      destinationInstruction := seq(|instructions|, _ => None);
    }

    /** The first loop of `Create`: blocks are added to `BasicBlocks` and
        `BasicBlockLookup`, and their instructions to `Instructions`. */
    static method AddBlocks(blocks: seq<BlockInput>)
      returns (r: Result<(seq<BlockRef>, map<BlockRef, nat>, seq<Node>)>)
      ensures r.Err? <==> !Distinct(Refs(blocks))
      ensures r.Err? ==> r.error == ArgumentException
      ensures r.Ok? ==> r.value == (Refs(blocks), PositionMap(Refs(blocks)), Concat(blocks))
    {
      var refs: seq<BlockRef> := [];
      var lookup: map<BlockRef, nat> := map[];
      var all: seq<Node> := [];
      for i := 0 to |blocks|
        invariant refs == Refs(blocks)[..i] && Distinct(refs)
        invariant lookup == PositionMap(refs)
        invariant all == Concat(blocks[..i])
      {
        var block := blocks[i];
        if block.ref in lookup {
          RepeatedKey(Refs(blocks), i);
          return Err(ArgumentException);
        }
        AddBlocksStep(blocks, i);
        DistinctSnoc(refs, block.ref);
        PositionMapSnoc(refs, block.ref);
        refs := refs + [block.ref];
        lookup := lookup[block.ref := i];
        all := all + block.instructions;
      }
      assert blocks[..|blocks|] == blocks;
      assert refs == Refs(blocks);
      return Ok((refs, lookup, all));
    }

    /** The second loop of `Create`: each instruction is added to
        `InstructionLookup` under its source value. */
    static method AddInstructions(all: seq<Node>) returns (r: Result<map<ValueId, nat>>)
      ensures r.Err? <==> !Distinct(Values(all))
      ensures r.Err? ==> r.error == ArgumentException
      ensures r.Ok? ==> r.value == PositionMap(Values(all))
    {
      var values: seq<ValueId> := [];
      var lookup: map<ValueId, nat> := map[];
      for x := 0 to |all|
        invariant values == Values(all)[..x] && Distinct(values)
        invariant lookup == PositionMap(values)
      {
        var v := all[x].value;
        if v in lookup {
          RepeatedKey(Values(all), x);
          return Err(ArgumentException);
        }
        assert Values(all)[..x + 1] == values + [v];
        DistinctSnoc(values, v);
        PositionMapSnoc(values, v);
        values := values + [v];
        lookup := lookup[v := x];
      }
      assert values == Values(all);
      return Ok(lookup);
    }

    /** The successor loop of one block `i`: each successor is looked up in
        `BasicBlockLookup`, added to the block's `Successors`, and the block
        to the successor's `Predecessors`; a missing successor stops it. */
    static method LinkSuccessors(i: nat, successors: seq<BlockRef>, lookup: map<BlockRef, nat>,
                                 succ: seq<seq<nat>>, pred: seq<seq<nat>>, ghost arcs: seq<Arc>)
      returns (r: Option<(seq<seq<nat>>, seq<seq<nat>>)>)
      requires i < |succ| && |pred| == |succ|
      requires forall b :: b in lookup ==> lookup[b] < |succ|
      requires forall x :: 0 <= x < |succ| ==> succ[x] == Successors(arcs, x) && pred[x] == Predecessors(arcs, x)
      ensures r.Some? <==> forall s :: s in successors ==> s in lookup
      ensures r.Some? ==> |r.value.0| == |succ| && |r.value.1| == |succ|
      ensures r.Some? ==> forall s :: s in successors ==> s in lookup
      ensures r.Some? ==>
        var all := arcs + ArcsFrom(i, ResolveTargets(lookup, successors));
        forall x :: 0 <= x < |succ| ==> r.value.0[x] == Successors(all, x) && r.value.1[x] == Predecessors(all, x)
    {
      var n := |succ|;
      var succ', pred' := succ, pred;
      ghost var arcs' := arcs;
      for k := 0 to |successors|
        invariant |succ'| == n && |pred'| == n
        invariant forall s :: s in successors[..k] ==> s in lookup
        invariant arcs' == arcs + ArcsFrom(i, ResolveTargets(lookup, successors[..k]))
        invariant forall x :: 0 <= x < n ==> succ'[x] == Successors(arcs', x) && pred'[x] == Predecessors(arcs', x)
      {
        var successor := successors[k];
        if successor !in lookup {
          return None;
        }
        var j := lookup[successor];
        forall x | 0 <= x < n {
          SuccessorsSnoc(arcs', Arc(i, j), x);
        }
        assert successors[..k + 1] == successors[..k] + [successor];
        assert ArcsFrom(i, ResolveTargets(lookup, successors[..k + 1]))
            == ArcsFrom(i, ResolveTargets(lookup, successors[..k])) + [Arc(i, j)];
        arcs' := arcs' + [Arc(i, j)];
        succ' := succ'[i := succ'[i] + [j]];
        pred' := pred'[j := pred'[j] + [i]];
      }
      assert successors[..|successors|] == successors;
      return Some((succ', pred'));
    }

    /** The last loop of `Create`: each block gets a fresh label, then its
        successors are linked. */
    static method LinkBlocks(blocks: seq<BlockInput>, lookup: map<BlockRef, nat>)
      returns (r: Result<(map<BlockRef, Label>, seq<seq<nat>>, seq<seq<nat>>)>)
      requires lookup == PositionMap(Refs(blocks))
      ensures r.Err? <==> !SuccessorsKnown(blocks)
      ensures r.Err? ==> r.error == KeyNotFoundException
      ensures r.Ok? ==> (
        var (labels, succ, pred) := r.value;
        labels.Keys == lookup.Keys && (forall b :: b in labels ==> labels[b] == Label(lookup[b])) &&
        |succ| == |blocks| && |pred| == |blocks| &&
        (forall a :: 0 <= a < |blocks| ==> succ[a] == Successors(AllArcs(Resolved(blocks)), a)) &&
        (forall b :: 0 <= b < |blocks| ==> pred[b] == Predecessors(AllArcs(Resolved(blocks)), b)))
    {
      var n := |blocks|;
      var labels: map<BlockRef, Label> := map[];
      var succ: seq<seq<nat>> := seq(n, _ => []);
      var pred: seq<seq<nat>> := seq(n, _ => []);
      ghost var arcs: seq<Arc> := [];
      assert forall j :: 0 <= j < n ==> Refs(blocks)[j] in lookup;
      for i := 0 to n
        invariant |succ| == n && |pred| == n
        invariant forall j :: 0 <= j < n ==> Refs(blocks)[j] in lookup
        invariant SweptUpTo(blocks, lookup, i, arcs)
        invariant forall x :: 0 <= x < n ==> succ[x] == Successors(arcs, x) && pred[x] == Predecessors(arcs, x)
        invariant labels == LabelMap(Refs(blocks), lookup, i)
      {
        var block := blocks[i];
        labels := labels[block.ref := Label(lookup[block.ref])];
        var linked := LinkSuccessors(i, block.successors, lookup, succ, pred, arcs);
        if linked.None? {
          MissingSuccessor(blocks, lookup, i);
          return Err(KeyNotFoundException);
        }
        succ, pred := linked.value.0, linked.value.1;
        SweepStep(blocks, lookup, i, arcs);
        arcs := arcs + ArcsFrom(i, ResolveTargets(lookup, block.successors));
      }
      AllSuccessorsLinked(blocks, lookup, arcs);
      LabelMapSpec(Refs(blocks), lookup, n);
      return Ok((labels, succ, pred));
    }

    /** `Create`: the context with its clean name, its blocks and instructions
        in order, both lookups, one label per block and the control-flow links,
        or the exception the construction ends with. */
    static method Create(input: FunctionInput, renamedSymbols: map<string, string>,
                         names: NameGenerator, parse: Parser)
      returns (r: Result<FunctionContext>)
      ensures r.Err? <==> CreateError(input, renamedSymbols, names, parse).Some?
      ensures r.Err? ==> r.error == CreateError(input, renamedSymbols, names, parse).value
      ensures r.Ok? ==> fresh(r.value) && r.value.Valid() && SuccessorsKnown(input.blocks)
      ensures r.Ok? ==> (
        var c := r.value;
        ExtractCleanName(input.mangledName, input.demangledName, renamedSymbols, names, parse) == Ok(c.cleanName) &&
        c.mangledName == input.mangledName && c.demangledName == input.demangledName &&
        c.isVoidReturn == input.isVoidReturn && c.parameters == input.parameters &&
        c.basicBlocks == Refs(input.blocks) &&
        c.instructions == Concat(input.blocks) &&
        Distinct(Refs(input.blocks)) && c.basicBlockLookup == PositionMap(Refs(input.blocks)) &&
        Distinct(Values(c.instructions)) && c.instructionLookup == PositionMap(Values(c.instructions)) &&
        c.labels.Keys == c.basicBlockLookup.Keys &&
        (forall b :: b in c.labels ==> c.labels[b] == Label(c.basicBlockLookup[b])) &&
        (forall a :: 0 <= a < |input.blocks| ==> c.successors[a] == Resolved(input.blocks)[a]) &&
        (forall b :: 0 <= b < |input.blocks| ==> c.predecessors[b] == Predecessors(AllArcs(Resolved(input.blocks)), b)) &&
        (forall x :: 0 <= x < |c.instructions| ==> c.loads[x] == [] && c.stores[x] == [] && c.accessors[x] == []) &&
        (forall x :: 0 <= x < |c.instructions| ==> c.sourceInstruction[x].None? && c.destinationInstruction[x].None?))
    {
      var name := ExtractCleanName(input.mangledName, input.demangledName, renamedSymbols, names, parse);
      if name.Err? {
        return Err(name.error);
      }
      var added := AddBlocks(input.blocks);
      if added.Err? {
        return Err(added.error);
      }
      var (refs, blockLookup, all) := added.value;
      var indexed := AddInstructions(all);
      if indexed.Err? {
        return Err(indexed.error);
      }
      var instructionLookup := indexed.value;
      var linked := LinkBlocks(input.blocks, blockLookup);
      if linked.Err? {
        return Err(linked.error);
      }
      var (labels, succ, pred) := linked.value;
      forall a | 0 <= a < |input.blocks|
        ensures succ[a] == Resolved(input.blocks)[a]
      {
        SuccessorsAfterSweep(Resolved(input.blocks), a);
      }
      PositionMapLookupIndexes(all);
      var c := new FunctionContext(input, name.value, refs, all, labels, instructionLookup, blockLookup, succ, pred);
      return Ok(c);
    }

    /** `TryGetStructReturnType`: the early exit, then a search of parameter
        0's attributes for the first type attribute. */
    method TryGetStructReturnType() returns (r: Option<TypeRef>)
      ensures r == StructReturnType(isVoidReturn, parameters)
    {
      if !isVoidReturn || |parameters| == 0 || !parameters[0].isPointer {
        return None;
      }
      var attributes := parameters[0].attributes;
      for i := 0 to |attributes|
        invariant FirstTypeAttribute(attributes[i..]) == FirstTypeAttribute(attributes)
      {
        assert attributes[i..][1..] == attributes[i + 1..];
        if attributes[i].TypeAttribute? {
          return Some(attributes[i].typeValue);
        }
      }
      return None;
    }

    /** The lists after the edges `edges` were added to the lists `l0`, `s0`, `a0`. */
    ghost predicate Reflects(edges: seq<Edge>, l0: seq<seq<nat>>, s0: seq<seq<nat>>, a0: seq<seq<nat>>)
      reads this
    {
      |loads| == |l0| && |stores| == |s0| && |accessors| == |a0| &&
      (forall t :: 0 <= t < |loads| ==> loads[t] == l0[t] + Targets(edges, LoadEdge, t)) &&
      (forall t :: 0 <= t < |stores| ==> stores[t] == s0[t] + Targets(edges, StoreEdge, t)) &&
      (forall t :: 0 <= t < |accessors| ==> accessors[t] == a0[t] + Targets(edges, AccessorEdge, t))
    }

    /** Adds `e.from` to the `e.kind` list of `e.target`. */
    method Record(e: Edge, ghost edges: seq<Edge>, ghost l0: seq<seq<nat>>, ghost s0: seq<seq<nat>>, ghost a0: seq<seq<nat>>)
      requires Reflects(edges, l0, s0, a0)
      requires e.target < |loads| && e.target < |stores| && e.target < |accessors|
      modifies this`loads, this`stores, this`accessors
      ensures Reflects(edges + [e], l0, s0, a0)
    {
      forall k, t {
        TargetsSnoc(edges, e, k, t);
      }
      match e.kind
      case LoadEdge => loads := loads[e.target := loads[e.target] + [e.from]];
      case StoreEdge => stores := stores[e.target := stores[e.target] + [e.from]];
      case AccessorEdge => accessors := accessors[e.target := accessors[e.target] + [e.from]];
    }

    /** `MaybeAddAccessor`: an accessor entry for `operand`, if it resolves. */
    method MaybeAddAccessor(x: nat, operand: ValueId,
                            ghost edges: seq<Edge>, ghost l0: seq<seq<nat>>, ghost s0: seq<seq<nat>>, ghost a0: seq<seq<nat>>)
      requires Valid() && Reflects(edges, l0, s0, a0)
      modifies this`loads, this`stores, this`accessors
      ensures Valid() && Reflects(edges + MaybeEdge(AccessorEdge, instructionLookup, operand, x), l0, s0, a0)
    {
      var source := Resolve(instructionLookup, operand);
      if source.Some? {
        Record(Edge(AccessorEdge, source.value, x), edges, l0, s0, a0);
      } else {
        assert edges + [] == edges;
      }
    }

    /** `MaybeAddAccessors`: `MaybeAddAccessor` for each operand in turn. */
    method MaybeAddAccessors(x: nat, operands: seq<ValueId>,
                             ghost edges: seq<Edge>, ghost l0: seq<seq<nat>>, ghost s0: seq<seq<nat>>, ghost a0: seq<seq<nat>>)
      requires Valid() && Reflects(edges, l0, s0, a0)
      modifies this`loads, this`stores, this`accessors
      ensures Valid() && Reflects(edges + AccessorEdges(instructionLookup, operands, x), l0, s0, a0)
    {
      assert edges + AccessorEdges(instructionLookup, operands[..0], x) == edges;
      for j := 0 to |operands|
        invariant Valid() && Reflects(edges + AccessorEdges(instructionLookup, operands[..j], x), l0, s0, a0)
      {
        MaybeAddAccessor(x, operands[j], edges + AccessorEdges(instructionLookup, operands[..j], x), l0, s0, a0);
        assert operands[..j + 1][..j] == operands[..j];
        assert edges + AccessorEdges(instructionLookup, operands[..j + 1], x)
            == edges + AccessorEdges(instructionLookup, operands[..j], x) + MaybeEdge(AccessorEdge, instructionLookup, operands[j], x);
      }
      assert operands[..|operands|] == operands;
    }

    /** One visit of `AnalyzeDataFlow`: the edges the role of instruction
        `x` calls for, and its `SourceInstruction` or `DestinationInstruction`. */
    method Visit(x: nat, ghost edges: seq<Edge>, ghost l0: seq<seq<nat>>, ghost s0: seq<seq<nat>>, ghost a0: seq<seq<nat>>)
      requires Valid() && x < |instructions| && Reflects(edges, l0, s0, a0)
      modifies this`loads, this`stores, this`accessors, this`sourceInstruction, this`destinationInstruction
      ensures Valid() && Reflects(edges + InstructionEdges(instructionLookup, instructions[x], x), l0, s0, a0)
      ensures sourceInstruction == (
        if instructions[x].role.LoadRole? then old(sourceInstruction)[x := Resolve(instructionLookup, instructions[x].role.source)]
        else old(sourceInstruction))
      ensures destinationInstruction == (
        if instructions[x].role.StoreRole? then old(destinationInstruction)[x := Resolve(instructionLookup, instructions[x].role.destination)]
        else old(destinationInstruction))
    {
      var node := instructions[x];
      match node.role {
        case LoadRole(source) =>
          var s := Resolve(instructionLookup, source);
          sourceInstruction := sourceInstruction[x := s];
          if s.Some? {
            Record(Edge(LoadEdge, s.value, x), edges, l0, s0, a0);
          } else {
            assert edges + [] == edges;
          }
        case StoreRole(source, destination) =>
          MaybeAddAccessor(x, source, edges, l0, s0, a0);
          ghost var mid := edges + MaybeEdge(AccessorEdge, instructionLookup, source, x);
          var d := Resolve(instructionLookup, destination);
          destinationInstruction := destinationInstruction[x := d];
          if d.Some? {
            Record(Edge(StoreEdge, d.value, x), mid, l0, s0, a0);
          } else {
            assert mid + [] == mid;
          }
          assert mid + MaybeEdge(StoreEdge, instructionLookup, destination, x)
              == edges + InstructionEdges(instructionLookup, node, x);
        case PhiRole =>
          MaybeAddAccessors(x, node.operands, edges, l0, s0, a0);
        case OtherRole =>
          MaybeAddAccessors(x, node.operands, edges, l0, s0, a0);
      }
    }

    /** `AnalyzeDataFlow`: one visit per instruction, in order, adding the
        edges its role calls for; the lists end up extended by exactly the
        edges of the whole pass, and each load and store records the
        instruction its address resolves to. */
    method AnalyzeDataFlow()
      requires Valid()
      modifies this`loads, this`stores, this`accessors, this`sourceInstruction, this`destinationInstruction
      ensures Valid()
      ensures Reflects(Edges(instructionLookup, instructions), old(loads), old(stores), old(accessors))
      ensures sourceInstruction == LoadSources(instructionLookup, instructions, old(sourceInstruction), |instructions|)
      ensures destinationInstruction == StoreDestinations(instructionLookup, instructions, old(destinationInstruction), |instructions|)
    {
      ghost var l0, s0, a0 := loads, stores, accessors;
      ghost var src0, dst0 := sourceInstruction, destinationInstruction;
      for x := 0 to |instructions|
        invariant Valid() && Reflects(Edges(instructionLookup, instructions[..x]), l0, s0, a0)
        invariant sourceInstruction == LoadSources(instructionLookup, instructions, src0, x)
        invariant destinationInstruction == StoreDestinations(instructionLookup, instructions, dst0, x)
      {
        Visit(x, Edges(instructionLookup, instructions[..x]), l0, s0, a0);
        EdgesSnoc(instructionLookup, instructions, x);
        VisitStep(instructionLookup, instructions, src0, dst0, x);
      }
      assert instructions[..|instructions|] == instructions;
    }
  }
}
