/** The data-flow edges `FunctionContext.AnalyzeDataFlow` records. Every
    instruction of a function is a position in its instruction list, and an
    operand is resolved through the lookup from source values to positions;
    an operand that is not in the lookup is skipped. */
module DataFlow {
  import opened Wrappers
  import opened Seqs
  import opened Llvm

  /** The role of an instruction in the data-flow pass: a load of the value
      at `source`, a store of `source` into `destination`, a phi, or any
      other instruction. */
  datatype Role =
    | LoadRole(source: ValueId)
    | StoreRole(source: ValueId, destination: ValueId)
    | PhiRole
    | OtherRole

  /** An instruction: the source value it translates, its role, its operands. */
  datatype Node = Node(value: ValueId, role: Role, operands: seq<ValueId>)

  /** Which list of the target instruction an edge is added to. */
  datatype EdgeKind = LoadEdge | StoreEdge | AccessorEdge

  /** `from` is added to the `kind` list of `target`. */
  datatype Edge = Edge(kind: EdgeKind, target: nat, from: nat)

  /** `InstructionLookup.TryGetValue`. */
  function Resolve(lookup: map<ValueId, nat>, v: ValueId): (r: Option<nat>)
    ensures r.Some? <==> v in lookup
    ensures r.Some? ==> r.value == lookup[v]
  {
    if v in lookup then Some(lookup[v]) else None
  }

  /** The edge added for operand `v` of instruction `from`, if `v` resolves. */
  function MaybeEdge(kind: EdgeKind, lookup: map<ValueId, nat>, v: ValueId, from: nat): seq<Edge>
  {
    if v in lookup then [Edge(kind, lookup[v], from)] else []
  }

  /** `MaybeAddAccessors`: one accessor edge per resolvable operand, in order. */
  function AccessorEdges(lookup: map<ValueId, nat>, operands: seq<ValueId>, from: nat): seq<Edge>
  {
    if |operands| == 0 then []
    else
      AccessorEdges(lookup, operands[..|operands| - 1], from)
        + MaybeEdge(AccessorEdge, lookup, operands[|operands| - 1], from)
  }

  /** The edges added while visiting instruction `x`. */
  function InstructionEdges(lookup: map<ValueId, nat>, node: Node, x: nat): seq<Edge>
  {
    match node.role
    case LoadRole(source) => MaybeEdge(LoadEdge, lookup, source, x)
    case StoreRole(source, destination) =>
      MaybeEdge(AccessorEdge, lookup, source, x) + MaybeEdge(StoreEdge, lookup, destination, x)
    case PhiRole => AccessorEdges(lookup, node.operands, x)
    case OtherRole => AccessorEdges(lookup, node.operands, x)
  }

  /** All edges of the pass over `nodes`, in the order they are added. */
  function Edges(lookup: map<ValueId, nat>, nodes: seq<Node>): seq<Edge>
  {
    if |nodes| == 0 then []
    else Edges(lookup, nodes[..|nodes| - 1]) + InstructionEdges(lookup, nodes[|nodes| - 1], |nodes| - 1)
  }

  /** The `kind` list of instruction `t` that the edges `edges` build, in order. */
  function Targets(edges: seq<Edge>, kind: EdgeKind, t: nat): seq<nat>
  {
    if |edges| == 0 then []
    else
      var e := edges[|edges| - 1];
      Targets(edges[..|edges| - 1], kind, t) + (if e.kind == kind && e.target == t then [e.from] else [])
  }

  /** How many of `operands` resolve to instruction `t`, repeats included. */
  function ResolvingCount(lookup: map<ValueId, nat>, operands: seq<ValueId>, t: nat): nat
  {
    if |operands| == 0 then 0
    else
      ResolvingCount(lookup, operands[..|operands| - 1], t)
        + (if Resolve(lookup, operands[|operands| - 1]) == Some(t) then 1 else 0)
  }

  lemma TargetsSnoc(edges: seq<Edge>, e: Edge, kind: EdgeKind, t: nat)
    ensures Targets(edges + [e], kind, t)
         == Targets(edges, kind, t) + (if e.kind == kind && e.target == t then [e.from] else [])
  {
    assert (edges + [e])[..|edges|] == edges;
  }

  lemma {:induction false} TargetsAppend(x: seq<Edge>, y: seq<Edge>, kind: EdgeKind, t: nat)
    ensures Targets(x + y, kind, t) == Targets(x, kind, t) + Targets(y, kind, t)
  {
    if |y| == 0 {
      assert x + y == x;
    } else {
      var y' := y[..|y| - 1];
      assert x + y == (x + y') + [y[|y| - 1]];
      assert y == y' + [y[|y| - 1]];
      TargetsSnoc(x + y', y[|y| - 1], kind, t);
      TargetsSnoc(y', y[|y| - 1], kind, t);
      TargetsAppend(x, y', kind, t);
    }
  }

  /** Every edge of the visit of instruction `x` starts at `x`. */
  lemma {:induction false} AccessorEdgesFrom(lookup: map<ValueId, nat>, operands: seq<ValueId>, x: nat)
    ensures forall e :: e in AccessorEdges(lookup, operands, x) ==> e.from == x && e.kind == AccessorEdge
  {
    if |operands| > 0 {
      AccessorEdgesFrom(lookup, operands[..|operands| - 1], x);
    }
  }

  lemma InstructionEdgesFrom(lookup: map<ValueId, nat>, node: Node, x: nat)
    ensures forall e :: e in InstructionEdges(lookup, node, x) ==> e.from == x
  {
    AccessorEdgesFrom(lookup, node.operands, x);
  }

  lemma {:induction false} EdgesFrom(lookup: map<ValueId, nat>, nodes: seq<Node>)
    ensures forall e :: e in Edges(lookup, nodes) ==> e.from < |nodes|
  {
    if |nodes| > 0 {
      EdgesFrom(lookup, nodes[..|nodes| - 1]);
      InstructionEdgesFrom(lookup, nodes[|nodes| - 1], |nodes| - 1);
    }
  }

  lemma {:induction false} NotFromX(edges: seq<Edge>, kind: EdgeKind, t: nat, x: nat)
    requires forall e :: e in edges ==> e.from != x
    ensures Count(Targets(edges, kind, t), x) == 0
  {
    if |edges| > 0 {
      var e' := edges[..|edges| - 1];
      var e := edges[|edges| - 1];
      assert forall d :: d in e' ==> d in edges;
      NotFromX(e', kind, t, x);
      CountAppend(Targets(e', kind, t), if e.kind == kind && e.target == t then [e.from] else [], x);
      assert Count([e.from], x) == 0 by { assert [e.from][..0] == []; }
    }
  }

  /** Only the visit of `x` adds `x` to any list: counts of `x` in the lists
      after the whole pass are the counts its own visit produces. */
  lemma {:induction false} OwnEdgesOnly(lookup: map<ValueId, nat>, nodes: seq<Node>, x: nat, kind: EdgeKind, t: nat)
    requires x < |nodes|
    ensures Count(Targets(Edges(lookup, nodes), kind, t), x)
         == Count(Targets(InstructionEdges(lookup, nodes[x], x), kind, t), x)
  {
    var n := |nodes| - 1;
    var prefix := nodes[..n];
    var own := InstructionEdges(lookup, nodes[n], n);
    TargetsAppend(Edges(lookup, prefix), own, kind, t);
    CountAppend(Targets(Edges(lookup, prefix), kind, t), Targets(own, kind, t), x);
    if x == n {
      EdgesFrom(lookup, prefix);
      NotFromX(Edges(lookup, prefix), kind, t, x);
    } else {
      InstructionEdgesFrom(lookup, nodes[n], n);
      NotFromX(own, kind, t, x);
      OwnEdgesOnly(lookup, prefix, x, kind, t);
    }
  }

  lemma CountSingleton(y: nat, x: nat)
    ensures Count([y], x) == if y == x then 1 else 0
  {
    assert [y][..0] == [];
  }

  lemma MaybeEdgeCount(kind: EdgeKind, lookup: map<ValueId, nat>, v: ValueId, x: nat, k: EdgeKind, t: nat)
    ensures Count(Targets(MaybeEdge(kind, lookup, v, x), k, t), x)
         == if kind == k && Resolve(lookup, v) == Some(t) then 1 else 0
  {
    if v in lookup {
      assert MaybeEdge(kind, lookup, v, x) == [] + [Edge(kind, lookup[v], x)];
      TargetsSnoc([], Edge(kind, lookup[v], x), k, t);
      CountSingleton(x, x);
    }
  }

  lemma {:induction false} AccessorEdgesCount(lookup: map<ValueId, nat>, operands: seq<ValueId>, x: nat, k: EdgeKind, t: nat)
    ensures Count(Targets(AccessorEdges(lookup, operands, x), k, t), x)
         == if k == AccessorEdge then ResolvingCount(lookup, operands, t) else 0
  {
    if |operands| > 0 {
      var o' := operands[..|operands| - 1];
      var last := operands[|operands| - 1];
      AccessorEdgesCount(lookup, o', x, k, t);
      TargetsAppend(AccessorEdges(lookup, o', x), MaybeEdge(AccessorEdge, lookup, last, x), k, t);
      CountAppend(Targets(AccessorEdges(lookup, o', x), k, t),
                  Targets(MaybeEdge(AccessorEdge, lookup, last, x), k, t), x);
      MaybeEdgeCount(AccessorEdge, lookup, last, x, k, t);
    }
  }

  /** A load adds itself once to the `Loads` of the instruction its address
      resolves to, and to no other list: no accessor edge for a load. */
  lemma LoadEdges(lookup: map<ValueId, nat>, nodes: seq<Node>, x: nat, t: nat)
    requires x < |nodes| && nodes[x].role.LoadRole?
    ensures Count(Targets(Edges(lookup, nodes), LoadEdge, t), x)
         == if Resolve(lookup, nodes[x].role.source) == Some(t) then 1 else 0
    ensures Count(Targets(Edges(lookup, nodes), AccessorEdge, t), x) == 0
    ensures Count(Targets(Edges(lookup, nodes), StoreEdge, t), x) == 0
  {
    OwnEdgesOnly(lookup, nodes, x, LoadEdge, t);
    OwnEdgesOnly(lookup, nodes, x, AccessorEdge, t);
    OwnEdgesOnly(lookup, nodes, x, StoreEdge, t);
    MaybeEdgeCount(LoadEdge, lookup, nodes[x].role.source, x, LoadEdge, t);
    MaybeEdgeCount(LoadEdge, lookup, nodes[x].role.source, x, AccessorEdge, t);
    MaybeEdgeCount(LoadEdge, lookup, nodes[x].role.source, x, StoreEdge, t);
  }

  lemma PairCount(e1: seq<Edge>, e2: seq<Edge>, x: nat, k: EdgeKind, t: nat)
    ensures Count(Targets(e1 + e2, k, t), x) == Count(Targets(e1, k, t), x) + Count(Targets(e2, k, t), x)
  {
    TargetsAppend(e1, e2, k, t);
    CountAppend(Targets(e1, k, t), Targets(e2, k, t), x);
  }

  /** A store adds itself once to the `Accessors` of the producer of the stored
      value and once to the `Stores` of its destination; the destination
      itself gains no accessor entry. */
  lemma StoreEdges(lookup: map<ValueId, nat>, nodes: seq<Node>, x: nat, t: nat)
    requires x < |nodes| && nodes[x].role.StoreRole?
    ensures Count(Targets(Edges(lookup, nodes), AccessorEdge, t), x)
         == if Resolve(lookup, nodes[x].role.source) == Some(t) then 1 else 0
    ensures Count(Targets(Edges(lookup, nodes), StoreEdge, t), x)
         == if Resolve(lookup, nodes[x].role.destination) == Some(t) then 1 else 0
    ensures Count(Targets(Edges(lookup, nodes), LoadEdge, t), x) == 0
  {
    var r := nodes[x].role;
    forall k | k in {AccessorEdge, StoreEdge, LoadEdge}
      ensures Count(Targets(Edges(lookup, nodes), k, t), x)
           == (if k == AccessorEdge && Resolve(lookup, r.source) == Some(t) then 1 else 0)
            + (if k == StoreEdge && Resolve(lookup, r.destination) == Some(t) then 1 else 0)
    {
      OwnEdgesOnly(lookup, nodes, x, k, t);
      PairCount(MaybeEdge(AccessorEdge, lookup, r.source, x), MaybeEdge(StoreEdge, lookup, r.destination, x), x, k, t);
      MaybeEdgeCount(AccessorEdge, lookup, r.source, x, k, t);
      MaybeEdgeCount(StoreEdge, lookup, r.destination, x, k, t);
    }
  }

  /** A phi or any other instruction adds itself to the `Accessors` of `t`
      once per operand occurrence that resolves to `t`, duplicates included,
      and nowhere else. */
  lemma AccessorEdgesOfOthers(lookup: map<ValueId, nat>, nodes: seq<Node>, x: nat, t: nat)
    requires x < |nodes| && (nodes[x].role.PhiRole? || nodes[x].role.OtherRole?)
    ensures Count(Targets(Edges(lookup, nodes), AccessorEdge, t), x)
         == ResolvingCount(lookup, nodes[x].operands, t)
    ensures Count(Targets(Edges(lookup, nodes), LoadEdge, t), x) == 0
    ensures Count(Targets(Edges(lookup, nodes), StoreEdge, t), x) == 0
  {
    OwnEdgesOnly(lookup, nodes, x, AccessorEdge, t);
    OwnEdgesOnly(lookup, nodes, x, LoadEdge, t);
    OwnEdgesOnly(lookup, nodes, x, StoreEdge, t);
    AccessorEdgesCount(lookup, nodes[x].operands, x, AccessorEdge, t);
    AccessorEdgesCount(lookup, nodes[x].operands, x, LoadEdge, t);
    AccessorEdgesCount(lookup, nodes[x].operands, x, StoreEdge, t);
  }

  /** With a lookup that sends distinct values to distinct positions, the
      operands resolving to the instruction of value `v` are the occurrences
      of `v`: an unresolvable operand counts for nothing. */
  lemma {:induction false} ResolvingCountByValue(lookup: map<ValueId, nat>, operands: seq<ValueId>, v: ValueId)
    requires v in lookup
    requires forall u :: u in lookup && lookup[u] == lookup[v] ==> u == v
    ensures ResolvingCount(lookup, operands, lookup[v]) == Count(operands, v)
  {
    if |operands| > 0 {
      ResolvingCountByValue(lookup, operands[..|operands| - 1], v);
    }
  }
}
