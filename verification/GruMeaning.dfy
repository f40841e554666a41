/** What every made-up name of an expansion stands for, and that the emitted
    nodes compute it. */
module GruMeaning {
  import opened Graphs
  import opened GruPass
  import opened GruSsa
  import opened Options
  import G = GruCell
  import T = Tensors

  /** One GRU application over a single frame. */
  datatype Cell = Cell(act: G.Activations, k: G.Weights, x: T.Matrix, h: T.Matrix) {
    predicate Sound() { G.Shaped(k, x, h) && k.hidden == HIDDEN }

    function GateSum(gate: nat): T.Matrix { G.Plus(G.InputBlock(k, x, gate), G.RecurrentBlock(k, h, gate)) }

    function Biased(gate: nat): T.Matrix
      requires Sound() && gate < 2
    {
      G.PlusBias(GateSum(gate), k, gate)
    }

    function OneMinusUpdate(): (m: T.Matrix)
      requires Sound()
      ensures m.width == HIDDEN && |m.rows| == |x.rows|
    {
      var z := G.GateMatrix(act, k, x, h, 0);
      G.Minus(T.Spread([1.0], |z.rows|, z.width), z)
    }
  }

  function Meaning(c: Cell, l: Local): Value
    requires c.Sound()
  {
    match l
    case Axes0 => Axes([0])
    case Split3 => Axes([HIDDEN, HIDDEN, HIDDEN])
    case Split6 => Axes([HIDDEN, HIDDEN, HIDDEN, HIDDEN, HIDDEN, HIDDEN])
    case One => Vec([1.0])
    case X => Mat(c.x)
    case H0 => Mat(c.h)
    case W => Mat(c.k.w)
    case RWeights => Mat(c.k.r)
    case B => Vec(c.k.b)
    case Wt => Mat(T.Transpose(c.k.w))
    case Rt => Mat(T.Transpose(c.k.r))
    case Xw => Mat(T.MatMul(c.x, T.Transpose(c.k.w)))
    case Hr => Mat(T.MatMul(c.h, T.Transpose(c.k.r)))
    case Xz => Mat(G.InputBlock(c.k, c.x, 0))
    case Xr => Mat(G.InputBlock(c.k, c.x, 1))
    case Xh => Mat(G.InputBlock(c.k, c.x, 2))
    case Hz => Mat(G.RecurrentBlock(c.k, c.h, 0))
    case HrGate => Mat(G.RecurrentBlock(c.k, c.h, 1))
    case Hh => Mat(G.RecurrentBlock(c.k, c.h, 2))
    case Wbz => Vec(G.BiasBlock(c.k, 0))
    case Wbr => Vec(G.BiasBlock(c.k, 1))
    case Wbh => Vec(G.BiasBlock(c.k, 2))
    case Rbz => Vec(G.BiasBlock(c.k, 3))
    case Rbr => Vec(G.BiasBlock(c.k, 4))
    case Rbh => Vec(G.BiasBlock(c.k, 5))
    case Z0 => Mat(c.GateSum(0))
    case Z1 => Mat(c.Biased(0))
    case Z2 => Mat(G.PlusBias(c.Biased(0), c.k, 3))
    case Z => Mat(G.GateMatrix(c.act, c.k, c.x, c.h, 0))
    case R0 => Mat(c.GateSum(1))
    case R1 => Mat(c.Biased(1))
    case R2 => Mat(G.PlusBias(c.Biased(1), c.k, 4))
    case R => Mat(G.GateMatrix(c.act, c.k, c.x, c.h, 1))
    case RecurrentH => Mat(G.PlusBias(G.RecurrentBlock(c.k, c.h, 2), c.k, 5))
    case ResetH =>
      Mat(G.Times(G.GateMatrix(c.act, c.k, c.x, c.h, 1), G.PlusBias(G.RecurrentBlock(c.k, c.h, 2), c.k, 5)))
    case Candidate0 => Mat(G.PlusBias(G.InputBlock(c.k, c.x, 2), c.k, 2))
    case Candidate1 => Mat(G.CandidateSum(c.act, c.k, c.x, c.h))
    case Candidate => Mat(G.CandidateMatrix(c.act, c.k, c.x, c.h))
    case OneMinusZ => Mat(c.OneMinusUpdate())
    case New0 => Mat(G.Times(c.OneMinusUpdate(), G.CandidateMatrix(c.act, c.k, c.x, c.h)))
    case New1 => Mat(G.Times(G.GateMatrix(c.act, c.k, c.x, c.h, 0), c.h))
    case New => Mat(G.NewState(c.act, c.k, c.x, c.h))
  }

  // ---- One operator at a time ----------------------------------------------------

  lemma AddMatrices(sem: Semantics, a: T.Matrix, b: T.Matrix)
    requires T.SameShape(a, b)
    ensures Evaluate(sem, Add, [Some(Mat(a)), Some(Mat(b))]) == Some([Mat(G.Plus(a, b))])
  {}

  lemma MulMatrices(sem: Semantics, a: T.Matrix, b: T.Matrix)
    requires T.SameShape(a, b)
    ensures Evaluate(sem, Mul, [Some(Mat(a)), Some(Mat(b))]) == Some([Mat(G.Times(a, b))])
  {}

  lemma SixBlocks(block: nat, hidden: nat)
    requires block < 6
    ensures (block + 1) * hidden <= 6 * hidden && block * hidden + hidden == (block + 1) * hidden
  {}

  lemma AddBias(sem: Semantics, m: T.Matrix, k: G.Weights, block: nat)
    requires m.width == k.hidden && block < 6 && |k.b| == 6 * k.hidden
    ensures (block + 1) * k.hidden <= |k.b|
    ensures Evaluate(sem, Add, [Some(Mat(m)), Some(Vec(G.BiasBlock(k, block)))]) == Some([Mat(G.PlusBias(m, k, block))])
  {
    SixBlocks(block, k.hidden);
    assert |G.BiasBlock(k, block)| == k.hidden;
  }

  lemma OneMinus(sem: Semantics, z: T.Matrix)
    ensures Evaluate(sem, Sub, [Some(Vec([1.0])), Some(Mat(z))])
         == Some([Mat(G.Minus(T.Spread([1.0], |z.rows|, z.width), z))])
  {}

  lemma SplitColumns(sem: Semantics, m: T.Matrix)
    requires m.width == 3 * HIDDEN
    ensures Evaluate(sem, Split(1), [Some(Mat(m)), Some(Axes([HIDDEN, HIDDEN, HIDDEN]))])
         == Some([Mat(T.Columns(m, 0, HIDDEN)), Mat(T.Columns(m, HIDDEN, HIDDEN)), Mat(T.Columns(m, 2 * HIDDEN, HIDDEN))])
  {
    hide T.Columns;
    var s: seq<int> := [HIDDEN, HIDDEN, HIDDEN];
    ThirdSums();
    var r := SplitValue(1, Mat(m), s);
    assert r.Some? && |r.value| == 3;
    assert r.value == [r.value[0], r.value[1], r.value[2]];
    assert r.value[1] == Mat(T.Columns(m, Sum(s[..1]), HIDDEN));
    assert r.value[2] == Mat(T.Columns(m, Sum(s[..2]), HIDDEN));
  }

  lemma ThirdSums()
    ensures var s: seq<int> := [HIDDEN, HIDDEN, HIDDEN];
      Sum(s[..0]) == 0 && Sum(s[..1]) == HIDDEN && Sum(s[..2]) == 2 * HIDDEN && Sum(s) == 3 * HIDDEN
  {
    var s: seq<int> := [HIDDEN, HIDDEN, HIDDEN];
    SumNext(s, 0);
    SumNext(s, 1);
    SumNext(s, 2);
    assert s[..3] == s;
  }

  lemma SumNext(s: seq<int>, i: nat)
    requires i < |s|
    ensures Sum(s[..i + 1]) == Sum(s[..i]) + s[i] && Sum(s[..0]) == 0
  {
    assert s[..i + 1][..i] == s[..i];
  }

  lemma SixthSums()
    ensures var s: seq<int> := [HIDDEN, HIDDEN, HIDDEN, HIDDEN, HIDDEN, HIDDEN];
      forall i | 0 <= i <= 6 :: Sum(s[..i]) == i * HIDDEN
  {
    var s: seq<int> := [HIDDEN, HIDDEN, HIDDEN, HIDDEN, HIDDEN, HIDDEN];
    SumNext(s, 0);
    SumNext(s, 1);
    SumNext(s, 2);
    SumNext(s, 3);
    SumNext(s, 4);
    SumNext(s, 5);
  }

  lemma SplitBias(sem: Semantics, k: G.Weights)
    requires k.hidden == HIDDEN && |k.b| == 6 * HIDDEN
    ensures Evaluate(sem, Split(0), [Some(Vec(k.b)), Some(Axes([HIDDEN, HIDDEN, HIDDEN, HIDDEN, HIDDEN, HIDDEN]))])
         == Some([Vec(G.BiasBlock(k, 0)), Vec(G.BiasBlock(k, 1)), Vec(G.BiasBlock(k, 2)),
                  Vec(G.BiasBlock(k, 3)), Vec(G.BiasBlock(k, 4)), Vec(G.BiasBlock(k, 5))])
  {
    hide Sum;
    var s: seq<int> := [HIDDEN, HIDDEN, HIDDEN, HIDDEN, HIDDEN, HIDDEN];
    SixthSums();
    assert s[..6] == s;
    assert forall i | 0 <= i < 6 :: s[i] == HIDDEN;
    var r := SplitValue(0, Vec(k.b), s);
    assert r.Some? && |r.value| == 6;
    assert r.value == [r.value[0], r.value[1], r.value[2], r.value[3], r.value[4], r.value[5]];
    assert forall i | 0 <= i < 6 :: r.value[i] == Vec(k.b[Sum(s[..i])..Sum(s[..i]) + s[i]]);
  }

  // ---- The emitted nodes ------------------------------------------------------------

  /** The operands of the GRU, as the cell sees them. */
  ghost predicate Loaded(sem: Semantics, env: Env<Name>, node: Node<Name>, c: Cell) {
    && node.kind.Gru? && Fault(node).None? && OriginalOnly(node) && c.Sound()
    && c.act == G.Activations(sem.sigmoid, sem.tanh)
    && Known(env, node.inputs) && node.outputs[1].Some? && node.outputs[0] != node.outputs[1]
    && (forall j | 0 <= j < 6 :: j != 4 ==> node.inputs[j].Some?)
    && env[node.inputs[0].value] == Cube([c.x])
    && env[node.inputs[1].value] == Cube([c.k.w])
    && env[node.inputs[2].value] == Cube([c.k.r])
    && env[node.inputs[3].value].Mat? && env[node.inputs[3].value].m.rows == [c.k.b]
    && env[node.inputs[5].value] == Cube([c.h])
  }

  function SolutionAt(env: Env<Name>, node: Node<Name>, k: nat, c: Cell, n: Name): Value
    requires c.Sound() && |node.outputs| >= 2
  {
    if n.Made? && n.gru == k then Meaning(c, n.local)
    else if Some(n) == node.outputs[1] then Cube([G.NewState(c.act, c.k, c.x, c.h)])
    else if Some(n) == node.outputs[0] then Tesseract([[G.NewState(c.act, c.k, c.x, c.h)]])
    else if n in env then env[n]
    else Axes([])
  }

  function Solution(env: Env<Name>, node: Node<Name>, k: nat, c: Cell): Name -> Value
    requires c.Sound() && |node.outputs| >= 2
  {
    (n: Name) => SolutionAt(env, node, k, c, n)
  }

  lemma Unary(sem: Semantics, env: Env<Name>, node: Node<Name>, k: nat, c: Cell, kind: Kind, a: Local, out: Local)
    requires c.Sound() && |node.outputs| >= 2
    requires Evaluate(sem, kind, [Some(Meaning(c, a))]) == Some([Meaning(c, out)])
    ensures Holds(sem, Solution(env, node, k, c), Op1(kind, M(k, a), M(k, out)))
  {
    hide Evaluate, Meaning;
    assert Read(Solution(env, node, k, c), [M(k, a)]) == [Some(Meaning(c, a))];
  }

  lemma Binary(sem: Semantics, env: Env<Name>, node: Node<Name>, k: nat, c: Cell, kind: Kind, a: Local, b: Local, out: Local)
    requires c.Sound() && |node.outputs| >= 2
    requires Evaluate(sem, kind, [Some(Meaning(c, a)), Some(Meaning(c, b))]) == Some([Meaning(c, out)])
    ensures Holds(sem, Solution(env, node, k, c), Op2(kind, M(k, a), M(k, b), M(k, out)))
  {
    hide Evaluate, Meaning;
    assert Read(Solution(env, node, k, c), [M(k, a), M(k, b)]) == [Some(Meaning(c, a)), Some(Meaning(c, b))];
  }

  lemma TransposesHold(sem: Semantics, env: Env<Name>, node: Node<Name>, k: nat, c: Cell)
    requires c.Sound() && node.kind.Gru? && Fault(node).None?
    ensures Holds(sem, Solution(env, node, k, c), Op1(Transpose, M(k, W), M(k, Wt)))
    ensures Holds(sem, Solution(env, node, k, c), Op1(Transpose, M(k, RWeights), M(k, Rt)))
  {
    hide Holds, Fault, Solution, G.Shaped;
    Unary(sem, env, node, k, c, Transpose, W, Wt);
    Unary(sem, env, node, k, c, Transpose, RWeights, Rt);
  }

  lemma ProductsHold(sem: Semantics, env: Env<Name>, node: Node<Name>, k: nat, c: Cell)
    requires c.Sound() && node.kind.Gru? && Fault(node).None?
    ensures Holds(sem, Solution(env, node, k, c), Op2(MatMul, M(k, X), M(k, Wt), M(k, Xw)))
    ensures Holds(sem, Solution(env, node, k, c), Op2(MatMul, M(k, H0), M(k, Rt), M(k, Hr)))
  {
    hide Holds, Fault, Solution;
    Binary(sem, env, node, k, c, MatMul, X, Wt, Xw);
    Binary(sem, env, node, k, c, MatMul, H0, Rt, Hr);
  }

  lemma UpdateSumHolds(sem: Semantics, env: Env<Name>, node: Node<Name>, k: nat, c: Cell)
    requires c.Sound() && node.kind.Gru? && Fault(node).None? && c.act == G.Activations(sem.sigmoid, sem.tanh)
    ensures Holds(sem, Solution(env, node, k, c), Op2(Add, M(k, Xz), M(k, Hz), M(k, Z0)))
    ensures Holds(sem, Solution(env, node, k, c), Op2(Add, M(k, Z0), M(k, Wbz), M(k, Z1)))
  {
    hide Holds, Fault, Solution, Evaluate, T.Rectangular, T.MatMul, T.Transpose, Emitted, G.InputBlock, G.RecurrentBlock, G.BiasBlock, G.PlusBias, G.Plus;
    AddMatrices(sem, G.InputBlock(c.k, c.x, 0), G.RecurrentBlock(c.k, c.h, 0));
    Binary(sem, env, node, k, c, Add, Xz, Hz, Z0);
    AddBias(sem, c.GateSum(0), c.k, 0);
    Binary(sem, env, node, k, c, Add, Z0, Wbz, Z1);
  }

  lemma UpdateBiasHolds(sem: Semantics, env: Env<Name>, node: Node<Name>, k: nat, c: Cell)
    requires c.Sound() && node.kind.Gru? && Fault(node).None? && c.act == G.Activations(sem.sigmoid, sem.tanh)
    ensures Holds(sem, Solution(env, node, k, c), Op2(Add, M(k, Z1), M(k, Rbz), M(k, Z2)))
  {
    hide Holds, Fault, Solution, Evaluate, T.Rectangular, T.MatMul, T.Transpose, Emitted, G.InputBlock, G.RecurrentBlock, G.BiasBlock, G.PlusBias, G.Plus;
    AddBias(sem, c.Biased(0), c.k, 3);
    Binary(sem, env, node, k, c, Add, Z1, Rbz, Z2);
  }

  lemma UpdateSigmoidHolds(sem: Semantics, env: Env<Name>, node: Node<Name>, k: nat, c: Cell)
    requires c.Sound() && node.kind.Gru? && Fault(node).None? && c.act == G.Activations(sem.sigmoid, sem.tanh)
    ensures Holds(sem, Solution(env, node, k, c), Op1(Sigmoid, M(k, Z2), M(k, Z)))
  {
    hide Holds, Fault, Solution, Evaluate, T.Rectangular, T.MatMul, T.Transpose, Emitted, G.InputBlock, G.RecurrentBlock, G.BiasBlock, G.PlusBias, G.Plus;
    GateEvaluates(sem, c, 0);
    Unary(sem, env, node, k, c, Sigmoid, Z2, Z);
  }

  lemma UpdateGateHolds(sem: Semantics, env: Env<Name>, node: Node<Name>, k: nat, c: Cell)
    requires c.Sound() && node.kind.Gru? && Fault(node).None? && c.act == G.Activations(sem.sigmoid, sem.tanh)
    ensures Holds(sem, Solution(env, node, k, c), Op2(Add, M(k, Z1), M(k, Rbz), M(k, Z2)))
    ensures Holds(sem, Solution(env, node, k, c), Op1(Sigmoid, M(k, Z2), M(k, Z)))
  {
    hide Holds, Fault, Solution, Evaluate, Meaning;
    UpdateBiasHolds(sem, env, node, k, c);
    UpdateSigmoidHolds(sem, env, node, k, c);
  }

  lemma ResetSumHolds(sem: Semantics, env: Env<Name>, node: Node<Name>, k: nat, c: Cell)
    requires c.Sound() && node.kind.Gru? && Fault(node).None? && c.act == G.Activations(sem.sigmoid, sem.tanh)
    ensures Holds(sem, Solution(env, node, k, c), Op2(Add, M(k, Xr), M(k, HrGate), M(k, R0)))
    ensures Holds(sem, Solution(env, node, k, c), Op2(Add, M(k, R0), M(k, Wbr), M(k, R1)))
  {
    hide Holds, Fault, Solution, Evaluate, T.Rectangular, T.MatMul, T.Transpose, Emitted, G.InputBlock, G.RecurrentBlock, G.BiasBlock, G.PlusBias, G.Plus;
    AddMatrices(sem, G.InputBlock(c.k, c.x, 1), G.RecurrentBlock(c.k, c.h, 1));
    Binary(sem, env, node, k, c, Add, Xr, HrGate, R0);
    AddBias(sem, c.GateSum(1), c.k, 1);
    Binary(sem, env, node, k, c, Add, R0, Wbr, R1);
  }

  lemma ResetBiasHolds(sem: Semantics, env: Env<Name>, node: Node<Name>, k: nat, c: Cell)
    requires c.Sound() && node.kind.Gru? && Fault(node).None? && c.act == G.Activations(sem.sigmoid, sem.tanh)
    ensures Holds(sem, Solution(env, node, k, c), Op2(Add, M(k, R1), M(k, Rbr), M(k, R2)))
  {
    hide Holds, Fault, Solution, Evaluate, T.Rectangular, T.MatMul, T.Transpose, Emitted, G.InputBlock, G.RecurrentBlock, G.BiasBlock, G.PlusBias, G.Plus;
    AddBias(sem, c.Biased(1), c.k, 4);
    Binary(sem, env, node, k, c, Add, R1, Rbr, R2);
  }

  lemma ResetSigmoidHolds(sem: Semantics, env: Env<Name>, node: Node<Name>, k: nat, c: Cell)
    requires c.Sound() && node.kind.Gru? && Fault(node).None? && c.act == G.Activations(sem.sigmoid, sem.tanh)
    ensures Holds(sem, Solution(env, node, k, c), Op1(Sigmoid, M(k, R2), M(k, R)))
  {
    hide Holds, Fault, Solution, Evaluate, T.Rectangular, T.MatMul, T.Transpose, Emitted, G.InputBlock, G.RecurrentBlock, G.BiasBlock, G.PlusBias, G.Plus;
    GateEvaluates(sem, c, 1);
    Unary(sem, env, node, k, c, Sigmoid, R2, R);
  }

  lemma ResetGateHolds(sem: Semantics, env: Env<Name>, node: Node<Name>, k: nat, c: Cell)
    requires c.Sound() && node.kind.Gru? && Fault(node).None? && c.act == G.Activations(sem.sigmoid, sem.tanh)
    ensures Holds(sem, Solution(env, node, k, c), Op2(Add, M(k, R1), M(k, Rbr), M(k, R2)))
    ensures Holds(sem, Solution(env, node, k, c), Op1(Sigmoid, M(k, R2), M(k, R)))
  {
    hide Holds, Fault, Solution, Evaluate, Meaning;
    ResetBiasHolds(sem, env, node, k, c);
    ResetSigmoidHolds(sem, env, node, k, c);
  }

  lemma GateEvaluates(sem: Semantics, c: Cell, gate: nat)
    requires c.Sound() && gate < 2 && c.act == G.Activations(sem.sigmoid, sem.tanh)
    ensures Evaluate(sem, Sigmoid, [Some(Mat(G.PlusBias(c.Biased(gate), c.k, 3 + gate)))])
         == Some([Mat(G.GateMatrix(c.act, c.k, c.x, c.h, gate))])
  {}

  lemma RecurrentBiasHolds(sem: Semantics, env: Env<Name>, node: Node<Name>, k: nat, c: Cell)
    requires c.Sound() && node.kind.Gru? && Fault(node).None? && c.act == G.Activations(sem.sigmoid, sem.tanh)
    ensures Holds(sem, Solution(env, node, k, c), Op2(Add, M(k, Hh), M(k, Rbh), M(k, RecurrentH)))
  {
    hide Holds, Fault, Solution, Evaluate, T.Rectangular, T.MatMul, T.Transpose, Emitted, G.InputBlock, G.RecurrentBlock, G.BiasBlock, G.PlusBias, G.Plus, G.Times, G.GateMatrix;
    AddBias(sem, G.RecurrentBlock(c.k, c.h, 2), c.k, 5);
    Binary(sem, env, node, k, c, Add, Hh, Rbh, RecurrentH);
  }

  lemma ResetProductHolds(sem: Semantics, env: Env<Name>, node: Node<Name>, k: nat, c: Cell)
    requires c.Sound() && node.kind.Gru? && Fault(node).None? && c.act == G.Activations(sem.sigmoid, sem.tanh)
    ensures Holds(sem, Solution(env, node, k, c), Op2(Mul, M(k, R), M(k, RecurrentH), M(k, ResetH)))
  {
    hide Holds, Fault, Solution, Evaluate, T.Rectangular, T.MatMul, T.Transpose, Emitted, G.InputBlock, G.RecurrentBlock, G.BiasBlock, G.PlusBias, G.Plus, G.Times, G.GateMatrix;
    MulMatrices(sem, G.GateMatrix(c.act, c.k, c.x, c.h, 1), G.PlusBias(G.RecurrentBlock(c.k, c.h, 2), c.k, 5));
    Binary(sem, env, node, k, c, Mul, R, RecurrentH, ResetH);
  }

  lemma ResetStateHolds(sem: Semantics, env: Env<Name>, node: Node<Name>, k: nat, c: Cell)
    requires c.Sound() && node.kind.Gru? && Fault(node).None? && c.act == G.Activations(sem.sigmoid, sem.tanh)
    ensures Holds(sem, Solution(env, node, k, c), Op2(Add, M(k, Hh), M(k, Rbh), M(k, RecurrentH)))
    ensures Holds(sem, Solution(env, node, k, c), Op2(Mul, M(k, R), M(k, RecurrentH), M(k, ResetH)))
  {
    hide Holds, Fault, Solution, Evaluate, Meaning;
    RecurrentBiasHolds(sem, env, node, k, c);
    ResetProductHolds(sem, env, node, k, c);
  }

  lemma CandidateBiasHolds(sem: Semantics, env: Env<Name>, node: Node<Name>, k: nat, c: Cell)
    requires c.Sound() && node.kind.Gru? && Fault(node).None? && c.act == G.Activations(sem.sigmoid, sem.tanh)
    ensures Holds(sem, Solution(env, node, k, c), Op2(Add, M(k, Xh), M(k, Wbh), M(k, Candidate0)))
  {
    hide Holds, Fault, Solution, Evaluate, T.Rectangular, T.MatMul, T.Transpose, Emitted, G.InputBlock, G.RecurrentBlock, G.BiasBlock, G.PlusBias, G.Plus, G.Times, G.GateMatrix;
    AddBias(sem, G.InputBlock(c.k, c.x, 2), c.k, 2);
    Binary(sem, env, node, k, c, Add, Xh, Wbh, Candidate0);
  }

  lemma CandidateMeanings(c: Cell)
    requires c.Sound()
    ensures var bias, reset := G.PlusBias(G.InputBlock(c.k, c.x, 2), c.k, 2),
                               G.Times(G.GateMatrix(c.act, c.k, c.x, c.h, 1), G.PlusBias(G.RecurrentBlock(c.k, c.h, 2), c.k, 5));
      && Meaning(c, Candidate0) == Mat(bias) && Meaning(c, ResetH) == Mat(reset) && Meaning(c, Candidate1) == Mat(G.Plus(bias, reset))
      && T.SameShape(bias, reset)
  {
    hide G.GateMatrix, G.Plus, G.BiasBlock;
  }

  lemma ResetAddedHolds(sem: Semantics, env: Env<Name>, node: Node<Name>, k: nat, c: Cell)
    requires c.Sound() && node.kind.Gru? && Fault(node).None? && c.act == G.Activations(sem.sigmoid, sem.tanh)
    ensures Holds(sem, Solution(env, node, k, c), Op2(Add, M(k, Candidate0), M(k, ResetH), M(k, Candidate1)))
  {
    hide Holds, Fault, Solution, Evaluate, Meaning;
    CandidateMeanings(c);
    AddMatrices(sem, G.PlusBias(G.InputBlock(c.k, c.x, 2), c.k, 2),
                G.Times(G.GateMatrix(c.act, c.k, c.x, c.h, 1), G.PlusBias(G.RecurrentBlock(c.k, c.h, 2), c.k, 5)));
    Binary(sem, env, node, k, c, Add, Candidate0, ResetH, Candidate1);
  }

  lemma CandidateSumHolds(sem: Semantics, env: Env<Name>, node: Node<Name>, k: nat, c: Cell)
    requires c.Sound() && node.kind.Gru? && Fault(node).None? && c.act == G.Activations(sem.sigmoid, sem.tanh)
    ensures Holds(sem, Solution(env, node, k, c), Op2(Add, M(k, Xh), M(k, Wbh), M(k, Candidate0)))
    ensures Holds(sem, Solution(env, node, k, c), Op2(Add, M(k, Candidate0), M(k, ResetH), M(k, Candidate1)))
  {
    hide Holds, Fault, Solution, Evaluate, Meaning;
    CandidateBiasHolds(sem, env, node, k, c);
    ResetAddedHolds(sem, env, node, k, c);
  }

  lemma CandidateHolds(sem: Semantics, env: Env<Name>, node: Node<Name>, k: nat, c: Cell)
    requires c.Sound() && node.kind.Gru? && Fault(node).None? && c.act == G.Activations(sem.sigmoid, sem.tanh)
    ensures Holds(sem, Solution(env, node, k, c), Op1(Tanh, M(k, Candidate1), M(k, Candidate)))
  {
    hide Holds, Fault, Solution, Evaluate, T.Rectangular, T.MatMul, T.Transpose, Emitted, G.InputBlock, G.RecurrentBlock, G.BiasBlock, G.PlusBias, G.Plus, G.Times, G.GateMatrix;
    TanhEvaluates(sem, c);
    Unary(sem, env, node, k, c, Tanh, Candidate1, Candidate);
  }

  lemma TanhEvaluates(sem: Semantics, c: Cell)
    requires c.Sound() && c.act == G.Activations(sem.sigmoid, sem.tanh)
    ensures Evaluate(sem, Tanh, [Some(Mat(G.CandidateSum(c.act, c.k, c.x, c.h)))])
         == Some([Mat(G.CandidateMatrix(c.act, c.k, c.x, c.h))])
  {
    hide G.CandidateSum;
  }

  lemma OneMinusHolds(sem: Semantics, env: Env<Name>, node: Node<Name>, k: nat, c: Cell)
    requires c.Sound() && node.kind.Gru? && Fault(node).None?
    ensures Holds(sem, Solution(env, node, k, c), Op2(Sub, M(k, One), M(k, Z), M(k, OneMinusZ)))
  {
    hide Holds, Fault, Solution, Evaluate, T.Rectangular, T.MatMul, T.Transpose, Emitted, G.Plus, G.Times, G.Minus, G.GateMatrix, G.CandidateMatrix, T.Spread;
    var z, candidate := G.GateMatrix(c.act, c.k, c.x, c.h, 0), G.CandidateMatrix(c.act, c.k, c.x, c.h);
    OneMinus(sem, z);
    Binary(sem, env, node, k, c, Sub, One, Z, OneMinusZ);
  }

  lemma NewPartHolds(sem: Semantics, env: Env<Name>, node: Node<Name>, k: nat, c: Cell)
    requires c.Sound() && node.kind.Gru? && Fault(node).None?
    ensures Holds(sem, Solution(env, node, k, c), Op2(Mul, M(k, OneMinusZ), M(k, Candidate), M(k, New0)))
  {
    hide Holds, Fault, Solution, Evaluate, Meaning;
    NewPartMeanings(c);
    NewShapes(c);
    MulMatrices(sem, c.OneMinusUpdate(), G.CandidateMatrix(c.act, c.k, c.x, c.h));
    Binary(sem, env, node, k, c, Mul, OneMinusZ, Candidate, New0);
  }

  lemma MixHolds(sem: Semantics, env: Env<Name>, node: Node<Name>, k: nat, c: Cell)
    requires c.Sound() && node.kind.Gru? && Fault(node).None?
    ensures Holds(sem, Solution(env, node, k, c), Op2(Sub, M(k, One), M(k, Z), M(k, OneMinusZ)))
    ensures Holds(sem, Solution(env, node, k, c), Op2(Mul, M(k, OneMinusZ), M(k, Candidate), M(k, New0)))
  {
    hide Holds, Fault, Solution, Evaluate, Meaning;
    OneMinusHolds(sem, env, node, k, c);
    NewPartHolds(sem, env, node, k, c);
  }

  lemma OldPartHolds(sem: Semantics, env: Env<Name>, node: Node<Name>, k: nat, c: Cell)
    requires c.Sound() && node.kind.Gru? && Fault(node).None?
    ensures Holds(sem, Solution(env, node, k, c), Op2(Mul, M(k, Z), M(k, H0), M(k, New1)))
  {
    hide Holds, Fault, Solution, Evaluate, T.Rectangular, T.MatMul, T.Transpose, Emitted, G.Plus, G.Times, G.Minus, G.GateMatrix, G.CandidateMatrix, T.Spread;
    var z, candidate := G.GateMatrix(c.act, c.k, c.x, c.h, 0), G.CandidateMatrix(c.act, c.k, c.x, c.h);
    MulMatrices(sem, z, c.h);
    Binary(sem, env, node, k, c, Mul, Z, H0, New1);
  }

  lemma NewPartMeanings(c: Cell)
    requires c.Sound()
    ensures var candidate := G.CandidateMatrix(c.act, c.k, c.x, c.h);
      && Meaning(c, OneMinusZ) == Mat(c.OneMinusUpdate()) && Meaning(c, Candidate) == Mat(candidate)
      && Meaning(c, New0) == Mat(G.Times(c.OneMinusUpdate(), candidate))
  {
    hide G.CandidateMatrix, G.GateMatrix, G.Times, G.Shaped;
  }

  lemma NewSumMeanings(c: Cell)
    requires c.Sound()
    ensures var z, candidate := G.GateMatrix(c.act, c.k, c.x, c.h, 0), G.CandidateMatrix(c.act, c.k, c.x, c.h);
      && Meaning(c, New0) == Mat(G.Times(c.OneMinusUpdate(), candidate)) && Meaning(c, New1) == Mat(G.Times(z, c.h))
      && Meaning(c, New) == Mat(G.Plus(G.Times(c.OneMinusUpdate(), candidate), G.Times(z, c.h)))
  {
    hide G.CandidateMatrix, G.GateMatrix, G.Times, G.Shaped, G.Plus;
  }

  lemma NewShapes(c: Cell)
    requires c.Sound()
    ensures var z, candidate := G.GateMatrix(c.act, c.k, c.x, c.h, 0), G.CandidateMatrix(c.act, c.k, c.x, c.h);
      T.SameShape(c.OneMinusUpdate(), candidate) && T.SameShape(G.Times(c.OneMinusUpdate(), candidate), G.Times(z, c.h))
  {
    hide Meaning, T.MatMul, T.Transpose, T.Spread;
  }

  lemma NewSumHolds(sem: Semantics, env: Env<Name>, node: Node<Name>, k: nat, c: Cell)
    requires c.Sound() && node.kind.Gru? && Fault(node).None?
    ensures Holds(sem, Solution(env, node, k, c), Op2(Add, M(k, New0), M(k, New1), M(k, New)))
  {
    hide Holds, Fault, Solution, Evaluate, Meaning;
    NewSumMeanings(c);
    NewShapes(c);
    var z, candidate := G.GateMatrix(c.act, c.k, c.x, c.h, 0), G.CandidateMatrix(c.act, c.k, c.x, c.h);
    AddMatrices(sem, G.Times(c.OneMinusUpdate(), candidate), G.Times(z, c.h));
    Binary(sem, env, node, k, c, Add, New0, New1, New);
  }

  lemma StateHolds(sem: Semantics, env: Env<Name>, node: Node<Name>, k: nat, c: Cell)
    requires c.Sound() && node.kind.Gru? && Fault(node).None?
    ensures Holds(sem, Solution(env, node, k, c), Op2(Mul, M(k, Z), M(k, H0), M(k, New1)))
    ensures Holds(sem, Solution(env, node, k, c), Op2(Add, M(k, New0), M(k, New1), M(k, New)))
  {
    hide Holds, Fault, Solution, Evaluate, Meaning;
    OldPartHolds(sem, env, node, k, c);
    NewSumHolds(sem, env, node, k, c);
  }

  /** What the two splits read and make. */
  lemma SplitMeanings(c: Cell)
    requires c.Sound()
    ensures var xw, hr := T.MatMul(c.x, T.Transpose(c.k.w)), T.MatMul(c.h, T.Transpose(c.k.r));
      && xw.width == hr.width == 3 * HIDDEN
      && Meaning(c, Xw) == Mat(xw) && Meaning(c, Hr) == Mat(hr) && Meaning(c, Split3) == Axes([HIDDEN, HIDDEN, HIDDEN])
      && [Meaning(c, Xz), Meaning(c, Xr), Meaning(c, Xh)]
         == [Mat(T.Columns(xw, 0, HIDDEN)), Mat(T.Columns(xw, HIDDEN, HIDDEN)), Mat(T.Columns(xw, 2 * HIDDEN, HIDDEN))]
      && [Meaning(c, Hz), Meaning(c, HrGate), Meaning(c, Hh)]
         == [Mat(T.Columns(hr, 0, HIDDEN)), Mat(T.Columns(hr, HIDDEN, HIDDEN)), Mat(T.Columns(hr, 2 * HIDDEN, HIDDEN))]
  {
    hide T.Columns;
  }

  lemma InputSplitHolds(sem: Semantics, env: Env<Name>, node: Node<Name>, k: nat, c: Cell)
    requires c.Sound() && |node.outputs| >= 2
    ensures Holds(sem, Solution(env, node, k, c), Node(Split(1), [M(k, Xw), M(k, Split3)], [M(k, Xz), M(k, Xr), M(k, Xh)]))
  {
    hide Evaluate, Meaning, Solution, Holds, T.Columns, T.MatMul, T.Transpose;
    SplitMeanings(c);
    SplitColumns(sem, T.MatMul(c.x, T.Transpose(c.k.w)));
    AllMade(sem, env, node, k, c, Split(1), Xw, Split3, [M(k, Xz), M(k, Xr), M(k, Xh)], [Xz, Xr, Xh],
            [Meaning(c, Xz), Meaning(c, Xr), Meaning(c, Xh)]);
  }

  lemma RecurrentSplitHolds(sem: Semantics, env: Env<Name>, node: Node<Name>, k: nat, c: Cell)
    requires c.Sound() && |node.outputs| >= 2
    ensures Holds(sem, Solution(env, node, k, c), Node(Split(1), [M(k, Hr), M(k, Split3)], [M(k, Hz), M(k, HrGate), M(k, Hh)]))
  {
    hide Evaluate, Meaning, Solution, Holds, T.Columns, T.MatMul, T.Transpose;
    SplitMeanings(c);
    SplitColumns(sem, T.MatMul(c.h, T.Transpose(c.k.r)));
    AllMade(sem, env, node, k, c, Split(1), Hr, Split3, [M(k, Hz), M(k, HrGate), M(k, Hh)], [Hz, HrGate, Hh],
            [Meaning(c, Hz), Meaning(c, HrGate), Meaning(c, Hh)]);
  }

  lemma BiasMeanings(c: Cell)
    requires c.Sound()
    ensures Meaning(c, B) == Vec(c.k.b) && Meaning(c, Split6) == Axes([HIDDEN, HIDDEN, HIDDEN, HIDDEN, HIDDEN, HIDDEN])
    ensures [Meaning(c, Wbz), Meaning(c, Wbr), Meaning(c, Wbh), Meaning(c, Rbz), Meaning(c, Rbr), Meaning(c, Rbh)]
         == [Vec(G.BiasBlock(c.k, 0)), Vec(G.BiasBlock(c.k, 1)), Vec(G.BiasBlock(c.k, 2)),
             Vec(G.BiasBlock(c.k, 3)), Vec(G.BiasBlock(c.k, 4)), Vec(G.BiasBlock(c.k, 5))]
  {
    hide G.BiasBlock;
  }

  /** Many outputs at once. */
  lemma AllMade(sem: Semantics, env: Env<Name>, node: Node<Name>, k: nat, c: Cell, kind: Kind, a: Local, b: Local,
                outs: seq<Option<Name>>, locals: seq<Local>, values: seq<Value>)
    requires c.Sound() && |node.outputs| >= 2 && |outs| == |locals| == |values|
    requires forall j | 0 <= j < |outs| :: outs[j] == M(k, locals[j]) && values[j] == Meaning(c, locals[j])
    requires Evaluate(sem, kind, [Some(Meaning(c, a)), Some(Meaning(c, b))]) == Some(values)
    ensures Holds(sem, Solution(env, node, k, c), Node(kind, [M(k, a), M(k, b)], outs))
  {
    hide Evaluate, Meaning;
    assert Read(Solution(env, node, k, c), [M(k, a), M(k, b)]) == [Some(Meaning(c, a)), Some(Meaning(c, b))];
  }

  lemma BiasesHold(sem: Semantics, env: Env<Name>, node: Node<Name>, k: nat, c: Cell)
    requires c.Sound() && |node.outputs| >= 2
    ensures Holds(sem, Solution(env, node, k, c),
      Node(Split(0), [M(k, B), M(k, Split6)], [M(k, Wbz), M(k, Wbr), M(k, Wbh), M(k, Rbz), M(k, Rbr), M(k, Rbh)]))
  {
    assert c.k.hidden == HIDDEN && |c.k.b| == 6 * HIDDEN;
    hide Evaluate, Meaning, Holds, Solution, G.Shaped;
    SplitBias(sem, c.k);
    BiasMeanings(c);
    AllMade(sem, env, node, k, c, Split(0), B, Split6,
            [M(k, Wbz), M(k, Wbr), M(k, Wbh), M(k, Rbz), M(k, Rbr), M(k, Rbh)], [Wbz, Wbr, Wbh, Rbz, Rbr, Rbh],
            [Meaning(c, Wbz), Meaning(c, Wbr), Meaning(c, Wbh), Meaning(c, Rbz), Meaning(c, Rbr), Meaning(c, Rbh)]);
  }

  lemma SqueezeHolds(sem: Semantics, env: Env<Name>, node: Node<Name>, k: nat, c: Cell, a: Name, out: Local)
    requires c.Sound() && |node.outputs| >= 2 && a in env && a.Original? && Some(a) !in node.outputs
    requires Reshapes(Squeeze, env[a]) && SqueezeFirst(env[a]) == Some(Meaning(c, out))
    ensures Holds(sem, Solution(env, node, k, c), Op2(Squeeze, Some(a), M(k, Axes0), M(k, out)))
  {
    hide Meaning;
    assert Meaning(c, Axes0) == Axes([0]) by { AxesMean(c); }
    assert Read(Solution(env, node, k, c), [Some(a), M(k, Axes0)]) == [Some(env[a]), Some(Axes([0]))];
  }

  lemma AxesMean(c: Cell)
    requires c.Sound()
    ensures Meaning(c, Axes0) == Axes([0])
  {}

  lemma OperandIsNoOutput(env: Env<Name>, node: Node<Name>, j: nat)
    requires NodeSsa(env.Keys, node) && j < |node.inputs| && node.inputs[j].Some?
    ensures node.inputs[j] !in node.outputs
  {
    assert node.inputs[j].value in env.Keys;
  }

  lemma DataSqueezesHold(sem: Semantics, env: Env<Name>, node: Node<Name>, k: nat, c: Cell)
    requires Loaded(sem, env, node, c) && NodeSsa(env.Keys, node)
    ensures Holds(sem, Solution(env, node, k, c), Op2(Squeeze, node.inputs[0], M(k, Axes0), M(k, X)))
    ensures Holds(sem, Solution(env, node, k, c), Op2(Squeeze, node.inputs[5], M(k, Axes0), M(k, H0)))
  {
    OperandIsNoOutput(env, node, 0);
    OperandIsNoOutput(env, node, 5);
    hide Fault, Holds, Solution, NodeSsa;
    SqueezeHolds(sem, env, node, k, c, node.inputs[0].value, X);
    SqueezeHolds(sem, env, node, k, c, node.inputs[5].value, H0);
  }

  lemma WeightSqueezesHold(sem: Semantics, env: Env<Name>, node: Node<Name>, k: nat, c: Cell)
    requires Loaded(sem, env, node, c) && NodeSsa(env.Keys, node)
    ensures Holds(sem, Solution(env, node, k, c), Op2(Squeeze, node.inputs[1], M(k, Axes0), M(k, W)))
    ensures Holds(sem, Solution(env, node, k, c), Op2(Squeeze, node.inputs[2], M(k, Axes0), M(k, RWeights)))
    ensures Holds(sem, Solution(env, node, k, c), Op2(Squeeze, node.inputs[3], M(k, Axes0), M(k, B)))
  {
    OperandIsNoOutput(env, node, 1);
    OperandIsNoOutput(env, node, 2);
    OperandIsNoOutput(env, node, 3);
    hide Fault, Holds, Solution, NodeSsa;
    SqueezeHolds(sem, env, node, k, c, node.inputs[1].value, W);
    SqueezeHolds(sem, env, node, k, c, node.inputs[2].value, RWeights);
    SqueezeHolds(sem, env, node, k, c, node.inputs[3].value, B);
  }

  lemma UnsqueezesHold(sem: Semantics, env: Env<Name>, node: Node<Name>, k: nat, c: Cell)
    requires Loaded(sem, env, node, c)
    ensures Holds(sem, Solution(env, node, k, c), Op2(Unsqueeze, M(k, New), M(k, Axes0), node.outputs[1]))
    ensures Holds(sem, Solution(env, node, k, c), Op2(Unsqueeze, node.outputs[1], M(k, Axes0), node.outputs[0]))
  {
    hide Fault, G.NewState;
    var sol, s := Solution(env, node, k, c), G.NewState(c.act, c.k, c.x, c.h);
    assert Read(sol, [M(k, New), M(k, Axes0)]) == [Some(Mat(s)), Some(Axes([0]))];
    assert Read(sol, [node.outputs[1], M(k, Axes0)]) == [Some(Cube([s])), Some(Axes([0]))];
  }

  /** Every emitted node computes what its outputs stand for. */
  lemma EmittedHolds(sem: Semantics, env: Env<Name>, node: Node<Name>, k: nat, c: Cell, i: nat)
    requires Loaded(sem, env, node, c) && NodeSsa(env.Keys, node) && i < 31
    ensures Holds(sem, Solution(env, node, k, c), Emitted(node, k, i))
  {
    hide Holds, Fault, Solution, NodeSsa, OriginalOnly;
    if i < 5 {
      DataSqueezesHold(sem, env, node, k, c);
      WeightSqueezesHold(sem, env, node, k, c);
    } else if i < 12 {
      FirstHold(sem, env, node, k, c, i);
    } else if i < 20 {
      GatesHold(sem, env, node, k, c, i);
    } else {
      LastHold(sem, env, node, k, c, i);
    }
  }

  lemma FirstHold(sem: Semantics, env: Env<Name>, node: Node<Name>, k: nat, c: Cell, i: nat)
    requires c.Sound() && node.kind.Gru? && Fault(node).None? && 5 <= i < 12
    ensures Holds(sem, Solution(env, node, k, c), Emitted(node, k, i))
  {
    hide Holds, Fault, Solution;
    TransposesHold(sem, env, node, k, c);
    ProductsHold(sem, env, node, k, c);
    InputSplitHolds(sem, env, node, k, c);
    RecurrentSplitHolds(sem, env, node, k, c);
    BiasesHold(sem, env, node, k, c);
  }

  lemma GatesHold(sem: Semantics, env: Env<Name>, node: Node<Name>, k: nat, c: Cell, i: nat)
    requires c.Sound() && node.kind.Gru? && Fault(node).None? && c.act == G.Activations(sem.sigmoid, sem.tanh) && 12 <= i < 20
    ensures Holds(sem, Solution(env, node, k, c), Emitted(node, k, i))
  {
    hide Holds, Fault, Solution;
    UpdateSumHolds(sem, env, node, k, c);
    UpdateGateHolds(sem, env, node, k, c);
    ResetSumHolds(sem, env, node, k, c);
    ResetGateHolds(sem, env, node, k, c);
  }

  lemma LastHold(sem: Semantics, env: Env<Name>, node: Node<Name>, k: nat, c: Cell, i: nat)
    requires Loaded(sem, env, node, c) && 20 <= i < 31
    ensures Holds(sem, Solution(env, node, k, c), Emitted(node, k, i))
  {
    hide Holds, Fault, Solution, OriginalOnly;
    ResetStateHolds(sem, env, node, k, c);
    CandidateSumHolds(sem, env, node, k, c);
    CandidateHolds(sem, env, node, k, c);
    MixHolds(sem, env, node, k, c);
    StateHolds(sem, env, node, k, c);
    UnsqueezesHold(sem, env, node, k, c);
  }
}
