/** The GRU pass over a whole graph. */
module GruGraph {
  import opened Graphs
  import opened GruPass
  import opened GruPreserves
  import opened GruSsa
  import opened Options

  ghost predicate OnlyOriginal(env: Env<Name>) { forall n | n in env :: n.Original? }

  /** A graph over original names that runs up to its last node, in which every
      GRU is one the pass accepts, has fitting operands, and names new outputs. */
  predicate Convertible(sem: Semantics, env: Env<Name>, nodes: seq<Node<Name>>) {
    nodes == [] || (
      var before, last := nodes[..|nodes| - 1], nodes[|nodes| - 1];
      && Convertible(sem, env, before) && Run(sem, env, before).Some? && OriginalOnly(last)
      && (last.kind.Gru? ==> Fits(Run(sem, env, before).value, last) && NodeSsa(Run(sem, env, before).value.Keys, last)))
  }

  /** Every GRU sees one frame and names the operands and output the expansion uses. */
  predicate AllExact(sem: Semantics, env: Env<Name>, nodes: seq<Node<Name>>)
    requires Convertible(sem, env, nodes)
  {
    nodes == [] || (
      var before, last := nodes[..|nodes| - 1], nodes[|nodes| - 1];
      AllExact(sem, env, before) && (last.kind.Gru? ==> Exact(Run(sem, env, before).value, last)))
  }

  /** Initializers of all expansions, and the values of the first `used` of them. */
  ghost predicate MadeSoFar(a: Env<Name>, used: nat, total: nat) {
    forall k: nat, l: Local ::
      && (Made(k, l) in a <==> if Rank(l) < 0 then k < total else k < used)
      && (Rank(l) < 0 && k < total ==> Made(k, l) in Constants(k) && a[Made(k, l)] == Constants(k)[Made(k, l)])
  }

  lemma ConstantsRank(k: nat, n: Name)
    ensures n in Constants(k) <==> n.Made? && n.gru == k && Rank(n.local) < 0
  {}

  lemma {:induction false} ConstantsHave(total: nat, n: Name)
    ensures n in ConstantsUpTo(total) <==> n.Made? && n.gru < total && Rank(n.local) < 0
    ensures n in ConstantsUpTo(total) ==> n in Constants(n.gru) && ConstantsUpTo(total)[n] == Constants(n.gru)[n]
  {
    hide Constants, Rank;
    if total > 0 {
      ConstantsHave(total - 1, n);
      ConstantsRank(total - 1, n);
    }
  }

  lemma StartsMade(env: Env<Name>, total: nat)
    requires OnlyOriginal(env)
    ensures MadeSoFar(env + ConstantsUpTo(total), 0, total) && Matches(env + ConstantsUpTo(total), env)
  {
    hide Constants, Rank, ConstantsUpTo;
    var a := env + ConstantsUpTo(total);
    forall k: nat, l: Local
      ensures Made(k, l) in a <==> if Rank(l) < 0 then k < total else k < 0
      ensures Rank(l) < 0 && k < total ==> Made(k, l) in Constants(k) && a[Made(k, l)] == Constants(k)[Made(k, l)]
    {
      ConstantsHave(total, Made(k, l));
      ConstantsRank(k, Made(k, l));
    }
    forall n: Name | n.Original? ensures n !in ConstantsUpTo(total) {
      ConstantsHave(total, n);
    }
  }

  lemma GatherMatches(a: Env<Name>, b: Env<Name>, node: Node<Name>)
    requires Matches(a, b) && OriginalOnly(node)
    ensures Known(a, node.inputs) == Known(b, node.inputs)
    ensures Known(a, node.inputs) ==> Gather(a, node.inputs) == Gather(b, node.inputs)
  {}

  lemma {:induction false} BindMatches(a: Env<Name>, b: Env<Name>, outs: seq<Option<Name>>, values: seq<Value>)
    requires Matches(a, b) && |outs| <= |values|
    requires forall j | 0 <= j < |outs| :: outs[j].Some? ==> outs[j].value.Original?
    ensures Matches(Bind(a, outs, values), Bind(b, outs, values))
    ensures forall n: Name | n.Made? :: (n in Bind(a, outs, values) <==> n in a) && (n in a ==> Bind(a, outs, values)[n] == a[n])
  {
    if outs != [] {
      BindMatches(a, b, outs[..|outs| - 1], values);
    }
  }

  /** A node over original names does the same in matching environments. */
  lemma NodeMatches(sem: Semantics, a: Env<Name>, b: Env<Name>, node: Node<Name>)
    requires Matches(a, b) && OriginalOnly(node)
    ensures ApplyNode(sem, a, node).Some? == ApplyNode(sem, b, node).Some?
    ensures ApplyNode(sem, a, node).Some? ==> Matches(ApplyNode(sem, a, node).value, ApplyNode(sem, b, node).value)
    ensures ApplyNode(sem, a, node).Some? ==> forall n: Name | n.Made? ::
      (n in ApplyNode(sem, a, node).value <==> n in a) && (n in a ==> ApplyNode(sem, a, node).value[n] == a[n])
  {
    hide Evaluate, Gather, Bind, Matches;
    GatherMatches(a, b, node);
    if Known(a, node.inputs) {
      var values := Evaluate(sem, node.kind, Gather(a, node.inputs));
      if values.Some? && |node.outputs| <= |values.value| {
        BindMatches(a, b, node.outputs, values.value);
      }
    }
  }

  lemma GruSitsAlike(sem: Semantics, a: Env<Name>, b: Env<Name>, node: Node<Name>, used: nat, total: nat)
    requires Matches(a, b) && OriginalOnly(node) && MadeSoFar(a, used, total) && used < total
    requires Fits(b, node) && NodeSsa(b.Keys, node)
    ensures Fits(a, node) && Exact(a, node) == Exact(b, node) && Placed(a.Keys, node, used) && Loadable(a, used)
  {
    assert node.kind.Gru? && Fault(node).None?;
    hide Fault, Graphs.GruFits, Gather, Constants, Rank;
    GatherMatches(a, b, node);
    assert forall l: Local :: Made(used, l) in a.Keys <==> Made(used, l) in a;
  }

  lemma GruKeepsMade(sem: Semantics, a: Env<Name>, node: Node<Name>, used: nat, total: nat)
    requires MadeSoFar(a, used, total) && used < total && Fits(a, node) && Exact(a, node)
    requires Placed(a.Keys, node, used) && Loadable(a, used)
    ensures Run(sem, a, Expansion(node, used)).Some?
    ensures MadeSoFar(Run(sem, a, Expansion(node, used)).value, used + 1, total)
  {
    assert node.kind.Gru? && Fault(node).None?;
    ExpansionIsGru(sem, a, node, used);
    ExpansionIsSsa(a.Keys, node, used);
    hide Fault, Expansion, Fits, Exact, Placed, Loadable, Constants, Rank, Matches, ApplyNode, Defined;
    var e := Run(sem, a, Expansion(node, used)).value;
    forall k: nat, l: Local
      ensures (Made(k, l) in e <==> if Rank(l) < 0 then k < total else k < used + 1)
      ensures Rank(l) < 0 && k < total ==> Made(k, l) in Constants(k) && e[Made(k, l)] == Constants(k)[Made(k, l)]
    {
      assert Made(k, l) in e.Keys <==> Made(k, l) in a || Made(k, l) in Defined(Expansion(node, used));
    }
  }

  lemma OtherKeepsMade(sem: Semantics, a: Env<Name>, b: Env<Name>, node: Node<Name>, used: nat, total: nat)
    requires Matches(a, b) && OriginalOnly(node) && MadeSoFar(a, used, total) && ApplyNode(sem, a, node).Some?
    ensures MadeSoFar(ApplyNode(sem, a, node).value, used, total)
  {
    NodeMatches(sem, a, b, node);
    hide ApplyNode, Matches, Constants, Rank;
  }

  lemma MatchesThrough(a: Env<Name>, b: Env<Name>, c: Env<Name>)
    requires Matches(a, b) && Matches(b, c)
    ensures Matches(a, c)
  {}

  function Replaced(node: Node<Name>, k: nat): seq<Node<Name>>
    requires Expandable(node)
  {
    if node.kind.Gru? then Expansion(node, k) else [node]
  }

  lemma RunSingle(sem: Semantics, a: Env<Name>, node: Node<Name>)
    ensures Run(sem, a, [node]) == ApplyNode(sem, a, node)
  {
    hide ApplyNode;
    assert [node][..0] == [];
    assert Run(sem, a, []) == Some(a);
  }

  /** One node of the graph and what replaces it, from matching environments. */
  lemma ReplacedAlike(sem: Semantics, a: Env<Name>, b: Env<Name>, node: Node<Name>, used: nat, total: nat)
    requires Matches(a, b) && MadeSoFar(a, used, total) && OriginalOnly(node)
    requires node.kind.Gru? ==> used < total && Fits(b, node) && NodeSsa(b.Keys, node)
    ensures Expandable(node)
    ensures var a', b' := Run(sem, a, Replaced(node, used)), ApplyNode(sem, b, node);
      && (a'.Some? <==> b'.Some? && (node.kind.Gru? ==> Exact(b, node)))
      && (a'.Some? ==> Matches(a'.value, b'.value) && MadeSoFar(a'.value, if node.kind.Gru? then used + 1 else used, total))
  {
    assert Expandable(node);
    NodeMatches(sem, a, b, node);
    hide ApplyNode, Matches, MadeSoFar, Expansion, OriginalOnly, Fault, Placed, Loadable;
    if node.kind.Gru? {
      GruSitsAlike(sem, a, b, node, used, total);
      ExpansionIsGru(sem, a, node, used);
      if Exact(a, node) {
        GruKeepsMade(sem, a, node, used, total);
        MatchesThrough(Run(sem, a, Expansion(node, used)).value, ApplyNode(sem, a, node).value, ApplyNode(sem, b, node).value);
      }
    } else {
      RunSingle(sem, a, node);
      if ApplyNode(sem, a, node).Some? {
        OtherKeepsMade(sem, a, b, node, used, total);
      }
    }
  }

  lemma {:induction false} ConvertibleExpands(sem: Semantics, env: Env<Name>, nodes: seq<Node<Name>>)
    requires Convertible(sem, env, nodes)
    ensures AllExpandable(nodes)
  {
    if nodes != [] {
      var before := nodes[..|nodes| - 1];
      ConvertibleExpands(sem, env, before);
      hide Fault, Run;
      assert forall i | 0 <= i < |before| :: nodes[i] == before[i];
      assert Expandable(nodes[|nodes| - 1]);
    }
  }

  /** What the induction says about a prefix. */
  ghost predicate Preserved(sem: Semantics, env: Env<Name>, nodes: seq<Node<Name>>, total: nat)
    requires Convertible(sem, env, nodes) && AllExpandable(nodes)
  {
    var a, b := Run(sem, env + ConstantsUpTo(total), ExpandAll(nodes)), Run(sem, env, nodes);
    && (a.Some? <==> b.Some? && AllExact(sem, env, nodes))
    && (a.Some? ==> Matches(a.value, b.value) && MadeSoFar(a.value, GruCount(nodes), total))
  }

  lemma LastNode(sem: Semantics, env: Env<Name>, nodes: seq<Node<Name>>)
    requires nodes != [] && Convertible(sem, env, nodes) && AllExpandable(nodes)
    ensures var before, last := nodes[..|nodes| - 1], nodes[|nodes| - 1];
      && Convertible(sem, env, before) && Run(sem, env, before).Some? && OriginalOnly(last) && Expandable(last)
      && (last.kind.Gru? ==> Fits(Run(sem, env, before).value, last) && NodeSsa(Run(sem, env, before).value.Keys, last))
      && (AllExact(sem, env, nodes) <==> AllExact(sem, env, before) && (last.kind.Gru? ==> Exact(Run(sem, env, before).value, last)))
      && Run(sem, env, nodes) == ApplyNode(sem, Run(sem, env, before).value, last)
  {
    hide ApplyNode, Fits, Exact, NodeSsa, OriginalOnly, Fault;
  }

  lemma LastExpansion(nodes: seq<Node<Name>>)
    requires nodes != [] && AllExpandable(nodes)
    ensures var before, last := nodes[..|nodes| - 1], nodes[|nodes| - 1];
      && AllExpandable(before) && Expandable(last)
      && ExpandAll(nodes) == ExpandAll(before) + Replaced(last, GruCount(before))
      && GruCount(nodes) == GruCount(before) + if last.kind.Gru? then 1 else 0
  {
    hide Expansion, Fault;
    assert Expandable(nodes[|nodes| - 1]);
  }

  lemma PreservedNext(sem: Semantics, env: Env<Name>, nodes: seq<Node<Name>>, total: nat)
    requires nodes != [] && Convertible(sem, env, nodes) && AllExpandable(nodes) && GruCount(nodes) <= total
    requires Convertible(sem, env, nodes[..|nodes| - 1]) && AllExpandable(nodes[..|nodes| - 1])
    requires Preserved(sem, env, nodes[..|nodes| - 1], total)
    ensures Preserved(sem, env, nodes, total)
  {
    hide ApplyNode, Matches, MadeSoFar, Fits, Exact, NodeSsa, OriginalOnly, Expansion, Fault, ConstantsUpTo, Expandable;
    hide AllExpandable, Convertible, AllExact, Run, GruCount, ExpandAll, Replaced;
    var before, last := nodes[..|nodes| - 1], nodes[|nodes| - 1];
    LastNode(sem, env, nodes);
    LastExpansion(nodes);
    var start := env + ConstantsUpTo(total);
    RunAppend(sem, start, ExpandAll(before), Replaced(last, GruCount(before)));
    var a := Run(sem, start, ExpandAll(before));
    if a.Some? {
      ReplacedAlike(sem, a.value, Run(sem, env, before).value, last, GruCount(before), total);
    }
  }

  /** The rewritten graph runs exactly when the original does and every GRU is
      exact; then every original name has its original value. */
  lemma {:induction false} ExpandingPreserves(sem: Semantics, env: Env<Name>, nodes: seq<Node<Name>>, total: nat)
    requires OnlyOriginal(env) && Convertible(sem, env, nodes) && GruCount(nodes) <= total
    ensures AllExpandable(nodes)
    ensures Run(sem, env + ConstantsUpTo(total), ExpandAll(nodes)).Some?
       <==> Run(sem, env, nodes).Some? && AllExact(sem, env, nodes)
    ensures Run(sem, env + ConstantsUpTo(total), ExpandAll(nodes)).Some? ==>
      Matches(Run(sem, env + ConstantsUpTo(total), ExpandAll(nodes)).value, Run(sem, env, nodes).value)
  {
    PreservedUpTo(sem, env, nodes, total);
    hide ExpandAll, Run, Matches, MadeSoFar, AllExact;
  }

  lemma {:induction false} PreservedUpTo(sem: Semantics, env: Env<Name>, nodes: seq<Node<Name>>, total: nat)
    requires OnlyOriginal(env) && Convertible(sem, env, nodes) && GruCount(nodes) <= total
    ensures AllExpandable(nodes) && Preserved(sem, env, nodes, total)
  {
    ConvertibleExpands(sem, env, nodes);
    if nodes == [] {
      hide ConstantsUpTo, OnlyOriginal, Matches, MadeSoFar;
      StartsMade(env, total);
    } else {
      hide Preserved, OnlyOriginal, AllExpandable, Fits, Fault, Run;
      PreservedUpTo(sem, env, nodes[..|nodes| - 1], total);
      PreservedNext(sem, env, nodes, total);
    }
  }

  // ---- Single assignment ------------------------------------------------------------

  /** Nodes over original names, the GRUs among them with both outputs listed. */
  predicate Plain(nodes: seq<Node<Name>>) {
    forall i | 0 <= i < |nodes| :: OriginalOnly(nodes[i]) && (nodes[i].kind.Gru? ==> |nodes[i].outputs| == 2)
  }

  /** The rewritten list defines the original names and the made-up values. */
  ghost predicate DefinesAlike(nodes: seq<Node<Name>>)
    requires AllExpandable(nodes)
  {
    forall n: Name :: n in Defined(ExpandAll(nodes)) <==>
      if n.Original? then n in Defined(nodes) else n.gru < GruCount(nodes) && Rank(n.local) >= 0
  }

  lemma OriginalOutputs(node: Node<Name>, n: Name)
    requires OriginalOnly(node) && n in Outputs(node)
    ensures n.Original? && Some(n) in node.outputs
  {}

  lemma NowPlaced(known: set<Name>, nodes: seq<Node<Name>>, node: Node<Name>, total: nat)
    requires AllExpandable(nodes) && DefinesAlike(nodes) && (forall n | n in known :: n.Original?) && GruCount(nodes) < total
    requires node.kind.Gru? && Fault(node).None? && OriginalOnly(node) && NodeSsa(known + Defined(nodes), node)
    ensures Placed(known + ConstantsUpTo(total).Keys + Defined(ExpandAll(nodes)), node, GruCount(nodes))
  {
    hide Fault, ExpandAll, Defined, GruCount, ConstantsUpTo, Constants, Rank;
    var now := known + ConstantsUpTo(total).Keys + Defined(ExpandAll(nodes));
    forall n: Name ensures n in now <==>
      if n.Original? then n in known + Defined(nodes)
      else if Rank(n.local) < 0 then n.gru < total else n.gru < GruCount(nodes)
    {
      ConstantsHave(total, n);
    }
  }

  lemma KnownGrows(known: set<Name>, nodes: seq<Node<Name>>, node: Node<Name>, total: nat)
    requires AllExpandable(nodes) && DefinesAlike(nodes) && OriginalOnly(node) && NodeSsa(known + Defined(nodes), node)
    ensures NodeSsa(known + ConstantsUpTo(total).Keys + Defined(ExpandAll(nodes)), node)
  {
    hide ExpandAll, Defined, GruCount, ConstantsUpTo, Constants, Rank;
    var now := known + ConstantsUpTo(total).Keys + Defined(ExpandAll(nodes));
    forall n: Name | n.Original? ensures n in now <==> n in known + Defined(nodes) {
      ConstantsHave(total, n);
    }
  }

  lemma SingleDefined(node: Node<Name>)
    ensures Defined([node]) == Outputs(node)
  {
    hide Outputs;
    assert [node][..0] == [];
    assert Defined<Name>([]) == {};
  }

  lemma SingleSsa(known: set<Name>, node: Node<Name>)
    ensures Ssa(known, [node]) <==> NodeSsa(known, node)
  {
    hide NodeSsa, Outputs;
    assert [node][..0] == [];
    assert Ssa<Name>(known, []) && known + Defined<Name>([]) == known;
  }

  lemma GruDefines(known: set<Name>, node: Node<Name>, k: nat, n: Name)
    requires Placed(known, node, k) && |node.outputs| == 2
    ensures n in Defined(Expansion(node, k)) <==>
      if n.Original? then n in Outputs(node) else n.gru == k && Rank(n.local) >= 0
  {
    ExpansionIsSsa(known, node, k);
    assert node.kind.Gru? && Fault(node).None? && OriginalOnly(node);
    hide Fault, Placed, Expansion, Defined, Rank, NodeSsa;
    assert node.outputs[..2] == node.outputs;
    if n in Outputs(node) { OriginalOutputs(node, n); }
    if n.Original? && Some(n) in node.outputs {
      var j :| 0 <= j < |node.outputs| && node.outputs[j] == Some(n);
    }
  }

  lemma ReplacementIsSsa(known: set<Name>, nodes: seq<Node<Name>>, node: Node<Name>, total: nat)
    requires AllExpandable(nodes) && DefinesAlike(nodes) && (forall n | n in known :: n.Original?)
    requires Expandable(node) && OriginalOnly(node) && (node.kind.Gru? ==> |node.outputs| == 2 && GruCount(nodes) < total)
    requires NodeSsa(known + Defined(nodes), node)
    ensures Ssa(known + ConstantsUpTo(total).Keys + Defined(ExpandAll(nodes)), Replaced(node, GruCount(nodes)))
    ensures forall n: Name :: n in Defined(Replaced(node, GruCount(nodes))) <==>
      if n.Original? then n in Outputs(node) else node.kind.Gru? && n.gru == GruCount(nodes) && Rank(n.local) >= 0
  {
    var now, k := known + ConstantsUpTo(total).Keys + Defined(ExpandAll(nodes)), GruCount(nodes);
    hide ExpandAll, Defined, GruCount, ConstantsUpTo, Rank, Expansion, NodeSsa, Ssa, Outputs, DefinesAlike, AllExpandable;
    if node.kind.Gru? {
      NowPlaced(known, nodes, node, total);
      hide Fault, Placed;
      ExpansionIsSsa(now, node, k);
      forall n: Name ensures n in Defined(Expansion(node, k)) <==>
        if n.Original? then n in Outputs(node) else n.gru == k && Rank(n.local) >= 0
      {
        GruDefines(now, node, k, n);
      }
    } else {
      KnownGrows(known, nodes, node, total);
      SingleSsa(now, node);
      SingleDefined(node);
      forall n | n in Outputs(node) ensures n.Original? {
        OriginalOutputs(node, n);
      }
    }
  }

  /** The pass keeps single-assignment form: with the new initializers known,
      every operand is defined before it is read and no name is defined twice. */
  lemma {:induction false} ExpandingKeepsSsa(known: set<Name>, nodes: seq<Node<Name>>, total: nat)
    requires AllExpandable(nodes) && Plain(nodes) && Ssa(known, nodes) && GruCount(nodes) <= total
    requires forall n | n in known :: n.Original?
    ensures Ssa(known + ConstantsUpTo(total).Keys, ExpandAll(nodes)) && DefinesAlike(nodes)
  {
    if nodes == [] {
    } else {
      var before, last := nodes[..|nodes| - 1], nodes[|nodes| - 1];
      LastExpansion(nodes);
      assert Plain(before) && OriginalOnly(last);
      hide ExpandAll, GruCount, ConstantsUpTo, AllExpandable, NodeSsa, Rank, Expandable, Replaced, OriginalOnly;
      ExpandingKeepsSsa(known, before, total);
      ReplacementIsSsa(known, before, last, total);
      SsaAppend(known + ConstantsUpTo(total).Keys, ExpandAll(before), Replaced(last, GruCount(before)));
      DefinedAppend(ExpandAll(before), Replaced(last, GruCount(before)));
      assert Defined(nodes) == Defined(before) + Outputs(last);
    }
  }
}
