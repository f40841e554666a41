/** Replacing GRUs by their expansions keeps the value of every original name. */
module GruPreserves {
  import opened Graphs
  import opened GruMeaning
  import opened GruPass
  import opened GruSsa
  import opened Options
  import G = GruCell
  import T = Tensors

  /** The initializers of expansion k are loaded and its other names unused. */
  ghost predicate Loadable(env: Env<Name>, k: nat) {
    forall l: Local ::
      && (Made(k, l) in env <==> Rank(l) < 0)
      && (Rank(l) < 0 ==> Made(k, l) in Constants(k) && env[Made(k, l)] == Constants(k)[Made(k, l)])
  }

  lemma ConstantMeans(c: Cell, k: nat, l: Local)
    requires c.Sound() && Rank(l) < 0
    ensures Made(k, l) in Constants(k) && Constants(k)[Made(k, l)] == Meaning(c, l)
  {
    hide G.Shaped;
  }

  lemma EnvironmentFollows(sem: Semantics, env: Env<Name>, node: Node<Name>, k: nat, c: Cell)
    requires Loaded(sem, env, node, c) && NodeSsa(env.Keys, node) && Loadable(env, k)
    ensures Follows(env, Solution(env, node, k, c))
  {
    forall n | n in env ensures env[n] == SolutionAt(env, node, k, c, n) {
      if n.Made? && n.gru == k {
        assert Made(k, n.local) in env;
        ConstantMeans(c, k, n.local);
      } else {
        assert n in env.Keys;
        NotAnOutput(env, node, n);
      }
    }
  }

  lemma NotAnOutput(env: Env<Name>, node: Node<Name>, n: Name)
    requires NodeSsa(env.Keys, node) && n in env && |node.outputs| >= 2
    ensures node.outputs[0] != Some(n) && node.outputs[1] != Some(n)
  {
    assert n in env.Keys;
  }

  /** With operands of one frame the emitted list runs to the solution. */
  lemma ExpansionRuns(sem: Semantics, env: Env<Name>, node: Node<Name>, k: nat, c: Cell)
    requires Loaded(sem, env, node, c) && Placed(env.Keys, node, k) && Loadable(env, k)
    ensures Run(sem, env, Expansion(node, k)).Some?
    ensures Follows(Run(sem, env, Expansion(node, k)).value, Solution(env, node, k, c))
    ensures Run(sem, env, Expansion(node, k)).value.Keys == env.Keys + Defined(Expansion(node, k))
  {
    assert node.kind.Gru? && Fault(node).None? && NodeSsa(env.Keys, node);
    hide Fault, Loaded, Placed, Loadable, Holds, Emitted, NodeSsa, Follows, Solution, Ssa;
    EnvironmentFollows(sem, env, node, k, c);
    ExpansionIsSsa(env.Keys, node, k);
    forall i | 0 <= i < 31 ensures Holds(sem, Solution(env, node, k, c), Expansion(node, k)[i]) {
      EmittedHolds(sem, env, node, k, c, i);
    }
    SolutionIsRun(sem, env, Solution(env, node, k, c), Expansion(node, k));
  }

  // ---- Against the operator ---------------------------------------------------------

  /** The operands of a GRU node fit the operator. */
  predicate Fits(env: Env<Name>, node: Node<Name>) {
    && node.kind.Gru? && Fault(node).None? && Known(env, node.inputs)
    && GruFits(node.kind.attrs, Gather(env, node.inputs)) && |node.outputs| == 2
  }

  function Frames(env: Env<Name>, node: Node<Name>): seq<T.Matrix>
    requires Fits(env, node)
  {
    GruFrames(Gather(env, node.inputs)).value
  }

  /** When the expansion can stand for the operator: one frame, and the bias, the
      first state and the Y_h output all named. */
  predicate Exact(env: Env<Name>, node: Node<Name>)
    requires Fits(env, node)
  {
    |Frames(env, node)| == 1 && node.inputs[3].Some? && node.inputs[5].Some? && node.outputs[1].Some?
  }

  function CellOf(sem: Semantics, env: Env<Name>, node: Node<Name>): (c: Cell)
    requires Fits(env, node) && Exact(env, node)
    ensures c.Sound()
  {
    var ins := Gather(env, node.inputs);
    Cell(G.Activations(sem.sigmoid, sem.tanh), GruWeights(HIDDEN, ins).value, GruFrames(ins).value[0],
         GruInitial(HIDDEN, GruFrames(ins).value, ins).value)
  }

  lemma CellIsLoaded(sem: Semantics, env: Env<Name>, node: Node<Name>, k: nat)
    requires Fits(env, node) && Exact(env, node) && Placed(env.Keys, node, k)
    ensures Loaded(sem, env, node, CellOf(sem, env, node))
  {
    var ins := Gather(env, node.inputs);
    OutputsDiffer(env.Keys, node);
    hide Fault, G.Shaped, NodeSsa;
    assert forall j | 0 <= j < 6 :: node.inputs[j].Some? ==> ins[j] == Some(env[node.inputs[j].value]);
  }

  lemma RecurrentOnce(sem: Semantics, attrs: Attrs, ins: seq<Option<Value>>, c: Cell)
    requires c.Sound() && c.act == G.Activations(sem.sigmoid, sem.tanh)
    requires GruFits(attrs, ins) && attrs["hidden_size"].n == HIDDEN && GruFrames(ins) == Some([c.x])
    requires GruWeights(HIDDEN, ins) == Some(c.k) && GruInitial(HIDDEN, [c.x], ins) == Some(c.h)
    ensures var s := G.NewState(c.act, c.k, c.x, c.h); Evaluate(sem, Gru(attrs), ins) == Some([Tesseract([[s]]), Cube([s])])
  {
    hide GruFrames, GruWeights, GruInitial, G.NewState, G.Shaped;
    StatesOfOne(c);
    var states := G.States(c.act, c.k, [c.x], c.h);
    assert seq(1, i requires 0 <= i < 1 => [states[i]]) == [[G.NewState(c.act, c.k, c.x, c.h)]];
  }

  /** One frame through the operator. */
  lemma OperatorStep(sem: Semantics, env: Env<Name>, node: Node<Name>)
    requires Fits(env, node) && Exact(env, node)
    ensures var c := CellOf(sem, env, node); var s := G.NewState(c.act, c.k, c.x, c.h);
      Evaluate(sem, node.kind, Gather(env, node.inputs)) == Some([Tesseract([[s]]), Cube([s])])
  {
    var c := CellOf(sem, env, node);
    FrameOf(sem, env, node);
    hide Fault, G.NewState, Evaluate, Frames;
    RecurrentOnce(sem, node.kind.attrs, Gather(env, node.inputs), c);
  }

  lemma FrameOf(sem: Semantics, env: Env<Name>, node: Node<Name>)
    requires Fits(env, node) && Exact(env, node)
    ensures Frames(env, node) == [CellOf(sem, env, node).x] && node.kind.attrs["hidden_size"].n == HIDDEN
  {
    hide G.Shaped;
  }

  lemma StatesOfOne(c: Cell)
    requires c.Sound()
    ensures G.States(c.act, c.k, [c.x], c.h) == [G.NewState(c.act, c.k, c.x, c.h)]
  {
    hide G.Shaped, G.NewState, G.Step;
    G.NewStateIsStep(c.act, c.k, c.x, c.h);
    assert [c.x][..0] == [];
    assert G.States(c.act, c.k, [], c.h) == [];
  }

  // ---- Where the expansion cannot run -----------------------------------------------

  lemma AbsentOperandSticks(sem: Semantics, env: Env<Name>, node: Node<Name>)
    requires node.kind.Squeeze? || node.kind.Unsqueeze?
    requires |node.inputs| == 2 && node.inputs[0].None?
    ensures ApplyNode(sem, env, node).None?
  {}

  lemma ManyFramesStick(sem: Semantics, env: Env<Name>, node: Node<Name>, k: nat)
    requires Fits(env, node) && Loadable(env, k) && |Frames(env, node)| != 1
    ensures ApplyNode(sem, env, Emitted(node, k, 0)).None?
  {
    assert env[Made(k, Axes0)] == Axes([0]) by { assert Rank(Axes0) < 0; }
    hide G.Shaped, Fault;
    var e := Emitted(node, k, 0);
    if Known(env, e.inputs) {
      assert Gather(env, e.inputs)[1] == Some(Axes([0]));
      assert Gather(env, e.inputs)[0] == Gather(env, node.inputs)[0];
    }
  }

  lemma InexactSticks(sem: Semantics, env: Env<Name>, node: Node<Name>, k: nat)
    requires Fits(env, node) && Loadable(env, k) && !Exact(env, node)
    ensures Run(sem, env, Expansion(node, k)).None?
  {
    var list := Expansion(node, k);
    assert |list| == 31 && forall i | 0 <= i < 31 :: list[i] == Emitted(node, k, i);
    hide Loadable, ApplyNode, Fault, GruFits;
    if |Frames(env, node)| != 1 {
      ManyFramesStick(sem, env, node, k);
      assert list[..0] == [] && Run(sem, env, list[..0]) == Some(env);
      StuckNode(sem, env, list, 0);
    } else {
      var i := if node.inputs[3].None? then 4 else if node.inputs[5].None? then 1 else 30;
      assert |list[i].inputs| == 2 && list[i].inputs[0].None?;
      forall e: Env<Name> ensures ApplyNode(sem, e, list[i]).None? {
        AbsentOperandSticks(sem, e, list[i]);
      }
      StuckNode(sem, env, list, i);
    }
  }

  // ---- One GRU ------------------------------------------------------------------------

  /** The rewritten environment holds the original names with their values. */
  ghost predicate Matches(a: Env<Name>, b: Env<Name>) {
    forall n: Name | n.Original? :: (n in a <==> n in b) && (n in b ==> a[n] == b[n])
  }

  lemma BindTwo(env: Env<Name>, outs: seq<Option<Name>>, x: Value, y: Value)
    requires |outs| == 2 && outs[1].Some?
    ensures Bind(env, outs, [x, y])
      == (if outs[0].None? then env else env[outs[0].value := x])[outs[1].value := y]
  {
    assert outs[..1][..0] == [] && outs[..1][0] == outs[0];
    assert Bind(env, [], [x, y]) == env;
    assert Bind(env, outs[..1], [x, y]) == if outs[0].None? then env else env[outs[0].value := x];
  }

  lemma OperatorRuns(sem: Semantics, env: Env<Name>, node: Node<Name>)
    requires Fits(env, node)
    ensures ApplyNode(sem, env, node).Some?
  {
    hide Fault, G.Shaped;
  }

  /** The expansion runs exactly when the GRU sees one frame and names its bias,
      first state and last state; it then gives the operator's own values. */
  lemma ExpansionIsGru(sem: Semantics, env: Env<Name>, node: Node<Name>, k: nat)
    requires Fits(env, node) && Placed(env.Keys, node, k) && Loadable(env, k)
    ensures ApplyNode(sem, env, node).Some?
    ensures Run(sem, env, Expansion(node, k)).Some? <==> Exact(env, node)
    ensures Exact(env, node) ==> Matches(Run(sem, env, Expansion(node, k)).value, ApplyNode(sem, env, node).value)
    ensures Exact(env, node) ==> Run(sem, env, Expansion(node, k)).value.Keys == env.Keys + Defined(Expansion(node, k))
    ensures Exact(env, node) ==> forall n | n in env :: Run(sem, env, Expansion(node, k)).value[n] == env[n]
  {
    hide Exact, Expansion, Fault, Run, ApplyNode, G.Shaped, Matches, Placed, Loadable;
    PlacedIsSsa(env.Keys, node, k);
    OperatorRuns(sem, env, node);
    if !Exact(env, node) {
      InexactSticks(sem, env, node, k);
    } else {
      var c := CellOf(sem, env, node);
      CellIsLoaded(sem, env, node, k);
      ExpansionRuns(sem, env, node, k, c);
      EnvironmentFollows(sem, env, node, k, c);
      RunMatches(sem, env, node, k, c, Run(sem, env, Expansion(node, k)).value);
    }
  }

  /** What the operator leaves behind. */
  lemma OperatorApplies(sem: Semantics, env: Env<Name>, node: Node<Name>)
    requires Fits(env, node) && Exact(env, node)
    ensures var c := CellOf(sem, env, node); var s := G.NewState(c.act, c.k, c.x, c.h);
      ApplyNode(sem, env, node) == Some((if node.outputs[0].None? then env else env[node.outputs[0].value := Tesseract([[s]])])
                                        [node.outputs[1].value := Cube([s])])
  {
    hide Evaluate, GruFits, Fault, Bind, G.NewState, G.Shaped, CellOf, Frames;
    var c := CellOf(sem, env, node);
    var s := G.NewState(c.act, c.k, c.x, c.h);
    OperatorStep(sem, env, node);
    BindTwo(env, node.outputs, Tesseract([[s]]), Cube([s]));
  }

  /** Name by name. */
  lemma OperatorBinds(sem: Semantics, env: Env<Name>, node: Node<Name>, k: nat, c: Cell, n: Name)
    requires Fits(env, node) && Exact(env, node) && Placed(env.Keys, node, k) && c == CellOf(sem, env, node) && n.Original?
    ensures ApplyNode(sem, env, node).Some?
    ensures n in ApplyNode(sem, env, node).value <==> n in env || Some(n) in node.outputs
    ensures n in ApplyNode(sem, env, node).value ==>
      ApplyNode(sem, env, node).value[n] == SolutionAt(env, node, k, c, n)
  {
    hide ApplyNode, Evaluate, Placed, GruFits, Fault, G.NewState, Meaning, G.Shaped, CellOf, Frames;
    OperatorApplies(sem, env, node);
    OutputsDiffer(env.Keys, node) by { PlacedIsSsa(env.Keys, node, k); }
    assert node.outputs == [node.outputs[0], node.outputs[1]];
  }

  lemma PlacedIsSsa(known: set<Name>, node: Node<Name>, k: nat)
    requires Placed(known, node, k)
    ensures node.kind.Gru? && Fault(node).None? && NodeSsa(known, node)
  {
    hide Fault;
  }

  lemma FollowsAt(e: Env<Name>, env: Env<Name>, node: Node<Name>, k: nat, c: Cell, n: Name)
    requires c.Sound() && |node.outputs| >= 2 && Follows(e, Solution(env, node, k, c))
    ensures n in e ==> e[n] == SolutionAt(env, node, k, c, n)
  {
    hide SolutionAt, G.Shaped;
  }

  lemma NameMatches(sem: Semantics, env: Env<Name>, node: Node<Name>, k: nat, c: Cell, e: Env<Name>, n: Name)
    requires Fits(env, node) && Exact(env, node) && Placed(env.Keys, node, k) && c == CellOf(sem, env, node)
    requires Follows(e, Solution(env, node, k, c)) && Follows(env, Solution(env, node, k, c))
    requires e.Keys == env.Keys + Defined(Expansion(node, k)) && n.Original?
    ensures ApplyNode(sem, env, node).Some?
    ensures n in e <==> n in ApplyNode(sem, env, node).value
    ensures n in e ==> e[n] == ApplyNode(sem, env, node).value[n]
  {
    assert |node.outputs| == 2 && node.outputs[..2] == node.outputs;
    hide ApplyNode, Placed, Defined, Fits, Exact, CellOf, SolutionAt, Follows, Solution, Fault, EmittedUpTo;
    OperatorBinds(sem, env, node, k, c, n);
    FollowsAt(e, env, node, k, c, n);
    ExpansionIsSsa(env.Keys, node, k);
    assert n in e <==> n in env.Keys || n in Defined(Expansion(node, k));
  }

  lemma RunMatches(sem: Semantics, env: Env<Name>, node: Node<Name>, k: nat, c: Cell, e: Env<Name>)
    requires Fits(env, node) && Exact(env, node) && Placed(env.Keys, node, k) && c == CellOf(sem, env, node)
    requires Follows(e, Solution(env, node, k, c)) && Follows(env, Solution(env, node, k, c))
    requires e.Keys == env.Keys + Defined(Expansion(node, k))
    ensures ApplyNode(sem, env, node).Some? && Matches(e, ApplyNode(sem, env, node).value)
    ensures forall n | n in env :: e[n] == env[n]
  {
    NameMatches(sem, env, node, k, c, e, Original(""));
    hide ApplyNode, Placed, Expansion, Defined, Fits, Exact, CellOf, SolutionAt, Follows, Solution;
    forall n: Name | n.Original?
      ensures n in e <==> n in ApplyNode(sem, env, node).value
      ensures n in e ==> e[n] == ApplyNode(sem, env, node).value[n]
    {
      NameMatches(sem, env, node, k, c, e, n);
    }
    forall n | n in env ensures e[n] == env[n] {
      FollowsAt(e, env, node, k, c, n);
      FollowsAt(env, env, node, k, c, n);
      assert n in env.Keys;
    }
  }
}
