/** The pass of scripts/prepare-deepfilter-model.py that splits every FusedConv
    into a standard Conv and its activation. */
module FusedConvPass {
  import opened Graphs
  import opened Options
  import T = Tensors

  const FUSED_CONV_COUNT: nat := 15

  datatype Error = UnexpectedDomain | MissingActivation | UnsupportedActivation | UnexpectedOutputs | UnexpectedCount
  datatype Outcome = Rewritten(nodes: seq<Node<string>>) | Failed(error: Error)

  function OutputName(node: Node<string>): string {
    if |node.outputs| == 0 || node.outputs[0].None? then "" else node.outputs[0].value
  }

  function Intermediate(node: Node<string>): string { OutputName(node) + "__conv" }

  /** What the pass refuses in one FusedConv node, in the order it looks. */
  function Fault(node: Node<string>): Option<Error>
    requires node.kind.FusedConv?
  {
    if node.kind.domain != "com.microsoft" then Some(UnexpectedDomain)
    else if "activation" !in node.kind.attrs || !node.kind.attrs["activation"].Text? then Some(MissingActivation)
    else if ActivationOf(node.kind.attrs).None? then Some(UnsupportedActivation)
    else if |node.outputs| != 1 then Some(UnexpectedOutputs)
    else None
  }

  predicate Splittable(node: Node<string>) { node.kind.FusedConv? ==> Fault(node).None? }

  predicate AllSplittable(nodes: seq<Node<string>>) { forall i | 0 <= i < |nodes| :: Splittable(nodes[i]) }

  function Convolve(node: Node<string>): Node<string>
    requires node.kind.FusedConv?
  {
    Node(Conv(node.kind.attrs - {"activation"}), node.inputs, [Some(Intermediate(node))])
  }

  function Activate(node: Node<string>): Node<string>
    requires node.kind.FusedConv? && Fault(node).None?
  {
    Node(ActivationOf(node.kind.attrs).value, [Some(Intermediate(node))], node.outputs)
  }

  function Split(node: Node<string>): seq<Node<string>>
    requires Splittable(node)
  {
    if node.kind.FusedConv? then [Convolve(node), Activate(node)] else [node]
  }

  function SplitAll(nodes: seq<Node<string>>): seq<Node<string>>
    requires AllSplittable(nodes)
  {
    if nodes == [] then [] else SplitAll(nodes[..|nodes| - 1]) + Split(nodes[|nodes| - 1])
  }

  function FusedCount(nodes: seq<Node<string>>): nat {
    if nodes == [] then 0
    else FusedCount(nodes[..|nodes| - 1]) + if nodes[|nodes| - 1].kind.FusedConv? then 1 else 0
  }

  /** The first refused node decides the error; otherwise the count does. */
  method DecomposeFusedConvs(graph: seq<Node<string>>) returns (r: Outcome)
    ensures r.Rewritten? <==> AllSplittable(graph) && FusedCount(graph) == FUSED_CONV_COUNT
    ensures r.Rewritten? ==> r.nodes == SplitAll(graph)
    ensures r.Failed? && r.error == UnexpectedCount ==> AllSplittable(graph)
    ensures r.Failed? && r.error != UnexpectedCount ==>
      exists i | 0 <= i < |graph| ::
        AllSplittable(graph[..i]) && graph[i].kind.FusedConv? && Fault(graph[i]) == Some(r.error)
  {
    var nodes: seq<Node<string>> := [];
    var replaced: nat := 0;
    var i := 0;
    while i < |graph|
      invariant 0 <= i <= |graph| && AllSplittable(graph[..i])
      invariant nodes == SplitAll(graph[..i]) && replaced == FusedCount(graph[..i])
    {
      var node := graph[i];
      assert graph[..i + 1][..i] == graph[..i];
      if !node.kind.FusedConv? {
        nodes := nodes + [node];
      } else {
        if node.kind.domain != "com.microsoft" {
          return Failed(UnexpectedDomain);
        }
        if "activation" !in node.kind.attrs || !node.kind.attrs["activation"].Text? {
          return Failed(MissingActivation);
        }
        if ActivationKind(node.kind.attrs["activation"].s).None? {
          return Failed(UnsupportedActivation);
        }
        if |node.outputs| != 1 {
          return Failed(UnexpectedOutputs);
        }
        nodes := nodes + [Convolve(node), Activate(node)];
        replaced := replaced + 1;
      }
      i := i + 1;
    }
    assert graph[..i] == graph;
    if replaced != FUSED_CONV_COUNT {
      return Failed(UnexpectedCount);
    }
    return Rewritten(nodes);
  }

  // ---- Every original name keeps its value -------------------------------------

  /** No name the graph already uses is one the pass makes up. */
  predicate Fresh(made: set<string>, env: Env<string>, nodes: seq<Node<string>>) {
    && env.Keys !! made
    && (forall i | 0 <= i < |nodes| :: NodeFresh(made, nodes[i]))
  }

  predicate NodeFresh(made: set<string>, node: Node<string>) {
    && (forall j | 0 <= j < |node.inputs| :: node.inputs[j].Some? ==> node.inputs[j].value !in made)
    && (forall j | 0 <= j < |node.outputs| :: node.outputs[j].Some? ==> node.outputs[j].value !in made)
    && (node.kind.FusedConv? ==> Intermediate(node) in made)
  }

  /** A convolution takes three operands; the fused operator's optional fourth, which
      it adds before the activation, has no place in it. */
  predicate Convolvable(node: Node<string>) { node.kind.FusedConv? ==> |node.inputs| <= 3 }

  predicate AllConvolvable(nodes: seq<Node<string>>) { forall i | 0 <= i < |nodes| :: Convolvable(nodes[i]) }

  predicate Agree(made: set<string>, a: Option<Env<string>>, b: Option<Env<string>>) {
    && a.Some? == b.Some?
    && (a.Some? ==> a.value - made == b.value && b.value.Keys !! made)
  }

  lemma GatherSame(made: set<string>, a: Env<string>, b: Env<string>, names: seq<Option<string>>)
    requires a - made == b
    requires forall j | 0 <= j < |names| :: names[j].Some? ==> names[j].value !in made
    ensures Known(a, names) == Known(b, names)
    ensures Known(a, names) ==> Gather(a, names) == Gather(b, names)
  {
    forall j | 0 <= j < |names| && names[j].Some?
      ensures (names[j].value in a) == (names[j].value in b)
    {
      assert (names[j].value in a - made) == (names[j].value in a);
    }
    if Known(a, names) {
      forall j | 0 <= j < |names| ensures Gather(a, names)[j] == Gather(b, names)[j] {
        if names[j].Some? { assert (a - made)[names[j].value] == a[names[j].value]; }
      }
    }
  }

  lemma {:induction false} BindSame(made: set<string>, a: Env<string>, b: Env<string>, outs: seq<Option<string>>, values: seq<Value>)
    requires a - made == b && |outs| <= |values|
    requires forall j | 0 <= j < |outs| :: outs[j].Some? ==> outs[j].value !in made
    ensures Bind(a, outs, values) - made == Bind(b, outs, values)
  {
    if outs != [] {
      var last := |outs| - 1;
      BindSame(made, a, b, outs[..last], values);
      if outs[last].Some? {
        var before := Bind(a, outs[..last], values);
        assert before[outs[last].value := values[last]] - made == (before - made)[outs[last].value := values[last]];
      }
    }
  }

  lemma OtherNodeSame(sem: Semantics, made: set<string>, a: Env<string>, b: Env<string>, node: Node<string>)
    requires a - made == b && b.Keys !! made && NodeFresh(made, node)
    ensures Agree(made, ApplyNode(sem, a, node), ApplyNode(sem, b, node))
  {
    hide Evaluate, Gather, Bind;
    GatherSame(made, a, b, node.inputs);
    if Known(a, node.inputs) {
      var values := Evaluate(sem, node.kind, Gather(a, node.inputs));
      if values.Some? && |node.outputs| <= |values.value| {
        BindSame(made, a, b, node.outputs, values.value);
      }
    }
  }

  /** One output binds one name, or none. */
  lemma BindOne(env: Env<string>, outs: seq<Option<string>>, v: Value)
    requires |outs| == 1
    ensures Bind(env, outs, [v]) == if outs[0].None? then env else env[outs[0].value := v]
  {
    assert outs[..0] == [];
  }

  /** A convolution and then its activation is the fused node. */
  lemma SplitPairSame(sem: Semantics, made: set<string>, a: Env<string>, b: Env<string>, node: Node<string>)
    requires a - made == b && b.Keys !! made && NodeFresh(made, node)
    requires node.kind.FusedConv? && Fault(node).None? && Convolvable(node)
    ensures Agree(made, AfterPair(sem, a, node), ApplyNode(sem, b, node))
  {
    hide MapValue, Gather, NodeFresh, Bind, ActivationOf, Intermediate;
    var ins, fused := node.inputs, node.kind;
    assert Intermediate(node) in made && forall j | 0 <= j < |ins| :: ins[j].Some? ==> ins[j].value !in made by {
      PairNames(made, node);
    }
    GatherSame(made, a, b, ins);
    if Known(a, ins) {
      var y := sem.conv(fused.attrs - {"activation"}, Gather(a, ins));
      if y.Some? {
        BindOne(a, [Some(Intermediate(node))], y.value);
        var mid := a[Intermediate(node) := y.value];
        assert ApplyNode(sem, a, Convolve(node)) == Some(mid);
        assert mid - made == b;
        ActivateSame(sem, made, mid, b, node, y.value);
      }
    }
  }

  lemma PairNames(made: set<string>, node: Node<string>)
    requires NodeFresh(made, node) && node.kind.FusedConv?
    ensures Intermediate(node) in made
    ensures forall j | 0 <= j < |node.inputs| :: node.inputs[j].Some? ==> node.inputs[j].value !in made
    ensures forall j | 0 <= j < |node.outputs| :: node.outputs[j].Some? ==> node.outputs[j].value !in made
  {}

  function AfterPair(sem: Semantics, env: Env<string>, node: Node<string>): Option<Env<string>>
    requires node.kind.FusedConv? && Fault(node).None?
  {
    var mid := ApplyNode(sem, env, Convolve(node));
    if mid.None? then None else ApplyNode(sem, mid.value, Activate(node))
  }

  lemma ActivateSame(sem: Semantics, made: set<string>, mid: Env<string>, b: Env<string>, node: Node<string>, y: Value)
    requires node.kind.FusedConv? && Fault(node).None? && NodeFresh(made, node) && Convolvable(node)
    requires mid - made == b && b.Keys !! made && Intermediate(node) in mid && mid[Intermediate(node)] == y
    requires Known(b, node.inputs) && sem.conv(node.kind.attrs - {"activation"}, Gather(b, node.inputs)) == Some(y)
    ensures Agree(made, ApplyNode(sem, mid, Activate(node)), ApplyNode(sem, b, node))
  {
    hide MapValue, NodeFresh, Bind, Intermediate;
    PairNames(made, node);
    var f := ActivationMap(sem, ActivationOf(node.kind.attrs).value);
    assert Gather(mid, [Some(Intermediate(node))]) == [Some(y)];
    if MapValue(f, y).Some? {
      BindOne(mid, node.outputs, MapValue(f, y).value);
      BindOne(b, node.outputs, MapValue(f, y).value);
    }
  }

  lemma RunTwo(sem: Semantics, env: Env<string>, node: Node<string>)
    requires node.kind.FusedConv? && Fault(node).None?
    ensures Run(sem, env, [Convolve(node), Activate(node)]) == AfterPair(sem, env, node)
  {
    hide ApplyNode, Convolve, Activate;
    var two := [Convolve(node), Activate(node)];
    assert two[..1] == [Convolve(node)] && [Convolve(node)][..0] == [];
    assert Run(sem, env, []) == Some(env);
    assert Run(sem, env, [Convolve(node)]) == ApplyNode(sem, env, Convolve(node));
  }

  lemma FourOperandsStick(sem: Semantics, env: Env<string>, node: Node<string>)
    requires node.kind.FusedConv? && Fault(node).None? && !Convolvable(node)
    ensures AfterPair(sem, env, node).None?
  {}

  /** With fresh intermediate names, the rewritten graph evaluates exactly when the
      original does and no fused node has a fourth operand; the environments then
      differ only in those names. */
  lemma {:induction false} SplittingPreserves(sem: Semantics, made: set<string>, env: Env<string>, nodes: seq<Node<string>>)
    requires AllSplittable(nodes) && Fresh(made, env, nodes)
    ensures Run(sem, env, SplitAll(nodes)).Some? <==> Run(sem, env, nodes).Some? && AllConvolvable(nodes)
    ensures AllConvolvable(nodes) ==> Agree(made, Run(sem, env, SplitAll(nodes)), Run(sem, env, nodes))
  {
    hide ApplyNode, Fault, NodeFresh;
    if nodes == [] {
      assert env - made == env;
    } else {
      var before, last := nodes[..|nodes| - 1], nodes[|nodes| - 1];
      SplittingPreserves(sem, made, env, before);
      LastConvolvable(nodes);
      RunAppend(sem, env, SplitAll(before), Split(last));
      var a, b := Run(sem, env, SplitAll(before)), Run(sem, env, before);
      if a.Some? {
        if !last.kind.FusedConv? {
          OtherNodeSame(sem, made, a.value, b.value, last);
          assert [last][..0] == [];
          assert Run(sem, a.value, []) == a;
        } else {
          RunTwo(sem, a.value, last);
          if Convolvable(last) {
            SplitPairSame(sem, made, a.value, b.value, last);
          } else {
            FourOperandsStick(sem, a.value, last);
          }
        }
      }
    }
  }

  lemma LastConvolvable(nodes: seq<Node<string>>)
    requires nodes != []
    ensures AllConvolvable(nodes) <==> AllConvolvable(nodes[..|nodes| - 1]) && Convolvable(nodes[|nodes| - 1])
  {
    hide Convolvable;
    forall i | 0 <= i < |nodes| ensures Convolvable(nodes[i]) <==> if i < |nodes| - 1 then Convolvable(nodes[..|nodes| - 1][i]) else Convolvable(nodes[|nodes| - 1]) {}
  }

  /** Freshness matters: where the graph already carries the made-up name, the
      original keeps its value and the rewritten graph reads the convolution. */
  lemma StaleNameChanges(sem: Semantics, env: Env<string>, node: Node<string>, y: Value)
    requires node.kind.FusedConv? && Fault(node).None? && |node.inputs| <= 3
    requires Known(env, node.inputs) && sem.conv(node.kind.attrs - {"activation"}, Gather(env, node.inputs)) == Some(y)
    requires ApplyNode(sem, env, node).Some? && Intermediate(node) in env
    ensures Intermediate(node) in ApplyNode(sem, env, node).value
    ensures ApplyNode(sem, env, node).value[Intermediate(node)] == env[Intermediate(node)]
    ensures AfterPair(sem, env, node).Some? && Intermediate(node) in AfterPair(sem, env, node).value
    ensures AfterPair(sem, env, node).value[Intermediate(node)] == y
  {
    hide MapValue, Bind;
    var made := Intermediate(node);
    assert |made| > |OutputName(node)|;
    BindOne(env, [Some(made)], y);
    var mid := env[made := y];
    assert ApplyNode(sem, env, Convolve(node)) == Some(mid);
    var f := ActivationMap(sem, ActivationOf(node.kind.attrs).value);
    assert Gather(mid, [Some(made)]) == [Some(y)];
    BindOne(mid, node.outputs, MapValue(f, y).value);
    BindOne(env, node.outputs, MapValue(f, y).value);
  }
}
