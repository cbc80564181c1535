/** The control-flow links `FunctionContext.Create` builds: block `a` gains
    successor `b` and `b` gains predecessor `a`, once per listed successor,
    in one sweep over the blocks. Blocks are positions in the block list. */
module BlockGraph {
  import opened Seqs

  /** One linking step: `from` lists `to` as a successor. */
  datatype Arc = Arc(from: nat, to: nat)

  /** The successor list of `a` after the steps `arcs`, in order. */
  function Successors(arcs: seq<Arc>, a: nat): seq<nat>
  {
    if |arcs| == 0 then []
    else
      var last := arcs[|arcs| - 1];
      Successors(arcs[..|arcs| - 1], a) + (if last.from == a then [last.to] else [])
  }

  /** The predecessor list of `b` after the steps `arcs`, in order. */
  function Predecessors(arcs: seq<Arc>, b: nat): seq<nat>
  {
    if |arcs| == 0 then []
    else
      var last := arcs[|arcs| - 1];
      Predecessors(arcs[..|arcs| - 1], b) + (if last.to == b then [last.from] else [])
  }

  /** The steps for block `a` whose resolved successors are `targets`. */
  function ArcsFrom(a: nat, targets: seq<nat>): (r: seq<Arc>)
    ensures |r| == |targets|
    ensures forall k :: 0 <= k < |targets| ==> r[k] == Arc(a, targets[k])
  {
    seq(|targets|, k requires 0 <= k < |targets| => Arc(a, targets[k]))
  }

  /** All steps of the sweep, block by block; `resolved[a]` is the list of
      positions of block `a`'s successors. */
  function AllArcs(resolved: seq<seq<nat>>): seq<Arc>
  {
    if |resolved| == 0 then []
    else AllArcs(resolved[..|resolved| - 1]) + ArcsFrom(|resolved| - 1, resolved[|resolved| - 1])
  }

  lemma SuccessorsSnoc(arcs: seq<Arc>, e: Arc, a: nat)
    ensures Successors(arcs + [e], a) == Successors(arcs, a) + (if e.from == a then [e.to] else [])
    ensures Predecessors(arcs + [e], a) == Predecessors(arcs, a) + (if e.to == a then [e.from] else [])
  {
    assert (arcs + [e])[..|arcs|] == arcs;
  }

  lemma {:induction false} SuccessorsAppend(x: seq<Arc>, y: seq<Arc>, a: nat)
    ensures Successors(x + y, a) == Successors(x, a) + Successors(y, a)
  {
    if |y| == 0 {
      assert x + y == x;
    } else {
      var y' := y[..|y| - 1];
      assert x + y == (x + y') + [y[|y| - 1]];
      assert y == y' + [y[|y| - 1]];
      SuccessorsSnoc(x + y', y[|y| - 1], a);
      SuccessorsSnoc(y', y[|y| - 1], a);
      SuccessorsAppend(x, y', a);
    }
  }

  lemma {:induction false} SuccessorsOfArcsFrom(from: nat, targets: seq<nat>, a: nat)
    ensures Successors(ArcsFrom(from, targets), a) == if a == from then targets else []
  {
    if |targets| > 0 {
      var t' := targets[..|targets| - 1];
      assert ArcsFrom(from, targets) == ArcsFrom(from, t') + [Arc(from, targets[|targets| - 1])];
      SuccessorsSnoc(ArcsFrom(from, t'), Arc(from, targets[|targets| - 1]), a);
      SuccessorsOfArcsFrom(from, t', a);
      assert targets == t' + [targets[|targets| - 1]];
    }
  }

  /** After the whole sweep, the successor list of block `a` is exactly its resolved
      successor list, in order and with repeats. */
  lemma {:induction false} SuccessorsAfterSweep(resolved: seq<seq<nat>>, a: nat)
    ensures Successors(AllArcs(resolved), a) == if a < |resolved| then resolved[a] else []
  {
    if |resolved| > 0 {
      var n := |resolved| - 1;
      var r' := resolved[..n];
      assert AllArcs(resolved) == AllArcs(r') + ArcsFrom(n, resolved[n]);
      SuccessorsAppend(AllArcs(r'), ArcsFrom(n, resolved[n]), a);
      SuccessorsOfArcsFrom(n, resolved[n], a);
      SuccessorsAfterSweep(r', a);
      if a < n {
        assert r'[a] == resolved[a];
        assert Successors(AllArcs(resolved), a) == r'[a] + [];
      } else if a == n {
        assert Successors(AllArcs(resolved), a) == [] + resolved[n];
      } else {
        assert Successors(AllArcs(resolved), a) == [] + [];
      }
    }
  }

  /** Both lists count the same steps: `b` is among the successors of `a`
      as often as `a` is among the predecessors of `b`. */
  lemma {:induction false} LinkCounts(arcs: seq<Arc>, a: nat, b: nat)
    ensures Count(Successors(arcs, a), b) == Count(arcs, Arc(a, b))
    ensures Count(Predecessors(arcs, b), a) == Count(arcs, Arc(a, b))
  {
    if |arcs| > 0 {
      var a' := arcs[..|arcs| - 1];
      var last := arcs[|arcs| - 1];
      LinkCounts(a', a, b);
      CountAppend(Successors(a', a), if last.from == a then [last.to] else [], b);
      CountAppend(Predecessors(a', b), if last.to == b then [last.from] else [], a);
      assert Count([last.to], b) == (if last.to == b then 1 else 0) by {
        assert [last.to][..0] == [];
      }
      assert Count([last.from], a) == (if last.from == a then 1 else 0) by {
        assert [last.from][..0] == [];
      }
    }
  }

  /** Block linking is symmetric with multiplicity: `b` occurs in the resolved
      successors of `a` exactly as often as `a` occurs in the predecessors of `b`
      after the sweep, so membership agrees in both directions. */
  lemma LinkingSymmetric(resolved: seq<seq<nat>>, a: nat, b: nat)
    requires a < |resolved|
    ensures Count(resolved[a], b) == Count(Predecessors(AllArcs(resolved), b), a)
    ensures b in resolved[a] <==> a in Predecessors(AllArcs(resolved), b)
  {
    SuccessorsAfterSweep(resolved, a);
    LinkCounts(AllArcs(resolved), a, b);
    CountPositive(resolved[a], b);
    CountPositive(Predecessors(AllArcs(resolved), b), a);
  }
}
