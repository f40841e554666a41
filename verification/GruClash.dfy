/** When the spelling of a made-up name is taken: exactly then the rewritten graph of
    text is no longer in single-assignment form. */
module GruClash {
  import opened Graphs
  import opened GruGraph
  import opened GruPass
  import opened GruPreserves
  import opened GruSsa
  import opened GruText
  import opened Options
  import T = Tensors

  // ---- Single assignment -------------------------------------------------------------------

  lemma {:induction false} DefinesNothingKnown<N(!new)>(known: set<N>, nodes: seq<Node<N>>)
    requires Ssa(known, nodes)
    ensures Defined(nodes) !! known
  {
    if nodes != [] { DefinesNothingKnown(known, nodes[..|nodes| - 1]); }
  }

  lemma {:induction false} ReadsWhatIsThere<N(!new)>(known: set<N>, nodes: seq<Node<N>>, i: nat, j: nat)
    requires Ssa(known, nodes) && i < |nodes| && j < |nodes[i].inputs| && nodes[i].inputs[j].Some?
    ensures nodes[i].inputs[j].value in known + Defined(nodes)
  {
    if i < |nodes| - 1 { ReadsWhatIsThere(known, nodes[..|nodes| - 1], i, j); }
  }

  lemma {:induction false} DefinedHas<N(!new)>(nodes: seq<Node<N>>, i: nat, j: nat)
    requires i < |nodes| && j < |nodes[i].outputs| && nodes[i].outputs[j].Some?
    ensures nodes[i].outputs[j].value in Defined(nodes)
  {
    if i < |nodes| - 1 { DefinedHas(nodes[..|nodes| - 1], i, j); }
  }

  lemma {:induction false} DefinedAt<N(!new)>(nodes: seq<Node<N>>, n: N) returns (i: nat, j: nat)
    requires n in Defined(nodes)
    ensures i < |nodes| && j < |nodes[i].outputs| && nodes[i].outputs[j] == Some(n)
  {
    var last := nodes[|nodes| - 1];
    if n in Outputs(last) {
      i := |nodes| - 1;
      j :| 0 <= j < |last.outputs| && last.outputs[j] == Some(n);
    } else {
      i, j := DefinedAt(nodes[..|nodes| - 1], n);
    }
  }

  /** No name is defined at two places. */
  lemma {:induction false} DefinedOnce<N(!new)>(known: set<N>, nodes: seq<Node<N>>, i: nat, j: nat, a: nat, b: nat)
    requires Ssa(known, nodes) && i <= a < |nodes| && j < |nodes[i].outputs| && b < |nodes[a].outputs|
    requires nodes[i].outputs[j].Some? && nodes[i].outputs[j] == nodes[a].outputs[b]
    ensures i == a && j == b
  {
    var init, last := nodes[..|nodes| - 1], |nodes| - 1;
    if a < last {
      DefinedOnce(known, init, i, j, a, b);
    } else if i < last {
      DefinedHas(init, i, j);
    }
  }

  // ---- On graphs of text -------------------------------------------------------------------

  lemma {:induction false} SpelledConstants(total: nat)
    ensures forall k: nat, l: Local | k < total && Rank(l) < 0 :: Spelled(k, l) in TextConstants(total)
    ensures forall s | s in TextConstants(total) :: !Free(s, total)
  {
    hide Spelled, Rank, Free, TextConstant;
    if total > 0 {
      SpelledConstants(total - 1);
      forall k: nat, l: Local | k < total && Rank(l) < 0 ensures Spelled(k, l) in TextConstants(total) {
        ConstantOf(total - 1, l);
      }
      forall s | s in TextConstants(total) ensures !Free(s, total) {
        LessFree(s, total - 1);
        if s in TextConstant(total - 1) { ConstantIsSpelled(total - 1, s); }
      }
    }
  }

  lemma ConstantOf(k: nat, l: Local)
    requires Rank(l) < 0
    ensures Spelled(k, l) in TextConstant(k)
  {
    hide Spelled;
    assert l == Axes0 || l == Split3 || l == Split6 || l == One;
  }

  lemma ConstantIsSpelled(k: nat, s: string)
    requires s in TextConstant(k)
    ensures !Free(s, k + 1)
  {
    hide Spelled;
    assert s in {Spelled(k, Axes0), Spelled(k, Split3), Spelled(k, Split6), Spelled(k, One)};
  }

  lemma LessFree(s: string, total: nat)
    ensures !Free(s, total) ==> !Free(s, total + 1)
  {
    hide Spelled;
  }

  /** A name the pass defines is defined under its spelling. */
  lemma DefinedSpelled(nodes: seq<Node<Name>>, n: Name)
    requires n in Defined(nodes)
    ensures Spelling(n) in Defined(RenameAll(Spelling, nodes))
  {
    hide Spelled, Defined;
    var i, j := DefinedAt(nodes, n);
    DefinedHas(RenameAll(Spelling, nodes), i, j);
  }

  /** Two names that the list defines are not spelled alike. */
  lemma SpelledOnceOnly(known: set<string>, nodes: seq<Node<Name>>, a: Name, b: Name)
    requires Ssa(known, RenameAll(Spelling, nodes)) && a in Defined(nodes) && b in Defined(nodes) && a != b
    ensures Spelling(a) != Spelling(b)
  {
    hide Spelled, Defined, Ssa;
    var i, j := DefinedAt(nodes, a);
    var x, y := DefinedAt(nodes, b);
    var text := RenameAll(Spelling, nodes);
    if Spelling(a) == Spelling(b) {
      if i <= x { DefinedOnce(known, text, i, j, x, y); } else { DefinedOnce(known, text, x, y, i, j); }
    }
  }

  lemma LiftedSsa(known: set<string>, graph: seq<Node<string>>) returns (names: set<Name>)
    requires Ssa(known, graph)
    ensures Ssa(names, RenameAll(Lift, graph)) && forall n | n in names :: n.Original?
    ensures forall s: string | s in Defined(graph) :: Lift(s) in Defined(RenameAll(Lift, graph))
  {
    names := set s | s in known :: Lift(s);
    hide Ssa, Defined;
    assert Injective(Lift, Always) && SameKnown(Lift, Always, known, names);
    forall i | 0 <= i < |graph| ensures UsesOnly(Always, graph[i]) { AlwaysUses(graph[i]); }
    SsaCarried(Lift, Always, known, names, graph);
    forall s: string | s in Defined(graph) ensures Lift(s) in Defined(RenameAll(Lift, graph)) { assert Always(s); }
  }

  /** Once the rewritten list is in single-assignment form over known names and new
      initializers, what the graph knew or defined is spelled like no made-up name. */
  lemma TakenNameBreaks(known: set<string>, graph: seq<Node<string>>, s: string, k: nat, l: Local)
    requires var nodes := RenameAll(Lift, graph); AllExpandable(nodes) && Plain(nodes) && k < GruCount(nodes)
    requires Ssa(known, graph) && s in known + Defined(graph) && s == Spelled(k, l)
    requires var total := GruCount(RenameAll(Lift, graph)); known !! TextConstants(total).Keys
    ensures !Ssa(known + TextConstants(GruCount(RenameAll(Lift, graph))).Keys, ExpandText(graph))
  {
    hide Spelled, Ssa, Defined, ExpandAll, Plain, AllExpandable, GruCount, TextConstants, Rank;
    var nodes := RenameAll(Lift, graph);
    var total := GruCount(nodes);
    var all := known + TextConstants(total).Keys;
    var names := LiftedSsa(known, graph);
    ExpandingKeepsSsa(names, nodes, total);
    SpelledConstants(total);
    if Ssa(all, ExpandText(graph)) {
      DefinesNothingKnown(all, ExpandText(graph));
      if s in Defined(graph) { DefinedSpelled(ExpandAll(nodes), Lift(s)); }
      assert Rank(l) >= 0;
      DefinedSpelled(ExpandAll(nodes), Made(k, l));
      SpelledOnceOnly(all, ExpandAll(nodes), Lift(s), Made(k, l));
    }
  }

  /** The pass keeps single-assignment form on graphs of text, new initializers apart from
      old names, if and only if no name of the graph is spelled like a made-up one. */
  lemma TextSsaExactly(known: set<string>, graph: seq<Node<string>>)
    requires var nodes := RenameAll(Lift, graph); AllExpandable(nodes) && Plain(nodes)
    requires Ssa(known, graph)
    ensures var total := GruCount(RenameAll(Lift, graph));
      && known !! TextConstants(total).Keys && Ssa(known + TextConstants(total).Keys, ExpandText(graph))
      <==> (forall s | s in known :: Free(s, total)) && forall i | 0 <= i < |graph| :: NodeFree(graph[i], total)
  {
    hide Spelled, Ssa, Defined, ExpandAll, Plain, AllExpandable, GruCount, TextConstants;
    var total := GruCount(RenameAll(Lift, graph));
    SpelledConstants(total);
    if (forall s | s in known :: Free(s, total)) && (forall i | 0 <= i < |graph| :: NodeFree(graph[i], total)) {
      TextKeepsSsa(known, graph, total);
    } else if known !! TextConstants(total).Keys {
      var s := SomeTaken(known, graph, total);
      var k: nat, l: Local :| k < total && s == Spelled(k, l);
      TakenNameBreaks(known, graph, s, k, l);
    }
  }

  lemma SomeTaken(known: set<string>, graph: seq<Node<string>>, total: nat) returns (s: string)
    requires Ssa(known, graph)
    requires !((forall s | s in known :: Free(s, total)) && (forall i | 0 <= i < |graph| :: NodeFree(graph[i], total)))
    ensures s in known + Defined(graph) && !Free(s, total)
  {
    hide Free, Ssa, Defined;
    if s' :| s' in known && !Free(s', total) {
      s := s';
    } else {
      var i: int :| 0 <= i < |graph| && !NodeFree(graph[i], total);
      if j :| 0 <= j < |graph[i].inputs| && graph[i].inputs[j].Some? && !Free(graph[i].inputs[j].value, total) {
        ReadsWhatIsThere(known, graph, i, j);
        s := graph[i].inputs[j].value;
      } else {
        var j: int :| 0 <= j < |graph[i].outputs| && graph[i].outputs[j].Some? && !Free(graph[i].outputs[j].value, total);
        DefinedHas(graph, i, j);
        s := graph[i].outputs[j].value;
      }
    }
  }

  // ---- A graph whose name is taken -----------------------------------------------------------

  function Blank(height: nat, width: nat): T.Matrix { T.Tabulate(height, width, (i, j) => 0.0) }

  const CONTRACT: Attrs := map["linear_before_reset" := Number(1), "hidden_size" := Number(HIDDEN)]

  /** One GRU over one frame with blank weights. */
  const GRU: Node<string> := Node(Gru(CONTRACT), [Some("x"), Some("w"), Some("r"), Some("b"), None, Some("h")], [None, Some("y")])

  function Operands(): Env<string> {
    map["x" := Cube([Blank(1, 1)]), "w" := Cube([Blank(3 * HIDDEN, 1)]), "r" := Cube([Blank(3 * HIDDEN, HIDDEN)]),
        "b" := Mat(Blank(1, 6 * HIDDEN)), "h" := Cube([Blank(1, HIDDEN)])]
  }

  lemma ShortIsFree(s: string, total: nat)
    requires |s| <= 1
    ensures Free(s, total)
  {
    forall k: nat, l: Local | k < total ensures s != Spelled(k, l) {
      assert |"webgpu_gru_"| == 11 && |Spelled(k, l)| >= 11;
    }
  }

  lemma OperandsFit()
    ensures Known(Operands(), GRU.inputs) && GruFits(CONTRACT, Gather(Operands(), GRU.inputs))
    ensures GruFrames(Gather(Operands(), GRU.inputs)) == Some([Blank(1, 1)])
  {
    var ins := Gather(Operands(), GRU.inputs);
    assert ins == [Some(Cube([Blank(1, 1)])), Some(Cube([Blank(3 * HIDDEN, 1)])), Some(Cube([Blank(3 * HIDDEN, HIDDEN)])),
                   Some(Mat(Blank(1, 6 * HIDDEN))), None, Some(Cube([Blank(1, HIDDEN)]))];
  }

  lemma LiftCarries(env: Env<string>)
    ensures Carries(Lift, Always, env, LiftEnv(env))
  {}

  /** The lifted node, spelled out. */
  lemma LiftedGru()
    ensures Rename(Lift, GRU) == Node(Gru(CONTRACT),
      [Some(Original("x")), Some(Original("w")), Some(Original("r")), Some(Original("b")), None, Some(Original("h"))],
      [None, Some(Original("y"))])
  {
    assert RenameEach(Lift, GRU.inputs) == [Some(Original("x")), Some(Original("w")), Some(Original("r")), Some(Original("b")), None, Some(Original("h"))];
    assert RenameEach(Lift, GRU.outputs) == [None, Some(Original("y"))];
  }

  lemma LiftedSitsRight()
    ensures NodeSsa(LiftEnv(Operands()).Keys, Rename(Lift, GRU)) && OriginalOnly(Rename(Lift, GRU))
    ensures Rename(Lift, GRU).kind == Gru(CONTRACT) && Fault(Rename(Lift, GRU)).None?
  {
    hide Blank, Rename;
    LiftedGru();
    assert LiftEnv(Operands()).Keys == {Original("x"), Original("w"), Original("r"), Original("b"), Original("h")};
  }

  lemma LiftedFits()
    ensures Fits(LiftEnv(Operands()), Rename(Lift, GRU)) && Exact(LiftEnv(Operands()), Rename(Lift, GRU))
  {
    hide GruFits, GruFrames, Operands, Fault, LiftEnv, Carries, NodeSsa, OriginalOnly;
    OperandsFit();
    LiftedSitsRight();
    LiftedGru();
    LiftCarries(Operands());
    AlwaysUses(GRU);
    GatherCarried(Lift, Always, Operands(), LiftEnv(Operands()), GRU.inputs);
  }

  lemma OperandsAccepted(sem: Semantics)
    ensures Accepted(sem, Operands(), [GRU]) && Faithful(sem, Operands(), [GRU]) && ApplyNode(sem, Operands(), GRU).Some?
  {
    hide Fits, Exact, NodeSsa, OriginalOnly, Operands, ApplyNode, Fault;
    LiftedFits();
    LiftedSitsRight();
    var nodes := RenameAll(Lift, [GRU]);
    assert nodes == [Rename(Lift, GRU)] && nodes[..0] == [];
    assert AllExact(sem, LiftEnv(Operands()), nodes[..0]);
    assert Convertible(sem, LiftEnv(Operands()), nodes[..0]) && Run(sem, LiftEnv(Operands()), nodes[..0]) == Some(LiftEnv(Operands()));
    OperatorRuns(sem, LiftEnv(Operands()), Rename(Lift, GRU));
    AlwaysUses(GRU);
    Lifted(sem, Operands(), [GRU]);
    RunFirst(sem, Operands(), GRU);
    OneRun(sem, LiftEnv(Operands()), Rename(Lift, GRU));
  }

  lemma OneRun(sem: Semantics, env: Env<Name>, node: Node<Name>)
    ensures Run(sem, env, [node]) == ApplyNode(sem, env, node)
  {
    hide ApplyNode;
    assert [node][..0] == [] && Run(sem, env, []) == Some(env);
  }

  lemma OperandsFree()
    ensures AllFree(Operands(), [GRU], 1) && Spelled(0, X) !in Operands()
  {
    hide Spelled, Blank;
    forall s | s in Operands() ensures Free(s, 1) { ShortIsFree(s, 1); }
    forall s: string | |s| <= 1 ensures Free(s, 1) { ShortIsFree(s, 1); }
    assert NodeFree(GRU, 1);
  }

  /** A graph whose environment carries the first made-up name with another value: the
      operator keeps the value, the expansion runs and loses it. */
  lemma TakenNameIsLost(sem: Semantics) returns (env: Env<string>)
    ensures Spelled(0, X) in env && env[Spelled(0, X)] == Vec([1.0])
    ensures var a := ApplyNode(sem, env, GRU);
      a.Some? && Spelled(0, X) in a.value && a.value[Spelled(0, X)] == Vec([1.0])
    ensures AllExpandable(RenameAll(Lift, [GRU]))
    ensures var b := Run(sem, env + TextConstants(1), ExpandText([GRU]));
      b.Some? && Spelled(0, X) in b.value && b.value[Spelled(0, X)] == Mat(Blank(1, 1))
  {
    hide Spelled, Run, ApplyNode, ExpandText, Blank, AllFree, Accepted, Faithful;
    env := Operands()[Spelled(0, X) := Vec([1.0])];
    OperandsFree();
    OperandsAccepted(sem);
    assert env - {Spelled(0, X)} == Operands();
    ShortIsFree("x", 1);
    assert "x" != Spelled(0, X);
    SpelledNameChanges(sem, env, GRU);
  }
}
