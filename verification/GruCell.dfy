/** The ONNX GRU operator with linear_before_reset = 1, forward, one direction,
    written element by element from its defining equations. Gate order is z, r, h
    in the rows of W and R; B holds the three W biases and then the three R biases. */
module GruCell {
  import opened Tensors

  datatype Weights = Weights(w: Matrix, r: Matrix, b: seq<real>, hidden: nat)

  datatype Activations = Activations(sigmoid: real -> real, tanh: real -> real)

  predicate Shaped(k: Weights, x: Matrix, h: Matrix) {
    && Rectangular(k.w) && Rectangular(k.r) && Rectangular(x) && Rectangular(h)
    && |k.w.rows| == 3 * k.hidden && |k.r.rows| == 3 * k.hidden && k.r.width == k.hidden
    && |k.b| == 6 * k.hidden
    && x.width == k.w.width && h.width == k.hidden && |h.rows| == |x.rows|
  }

  function Sigmoid(a: Activations, x: real): real { a.sigmoid(x) }

  function Tanh(a: Activations, x: real): real { a.tanh(x) }

  /** Rows out of range read as empty, biases out of range as zero. */
  function Bias(k: Weights, block: nat, j: int): real {
    if 0 <= block * k.hidden + j < |k.b| then k.b[block * k.hidden + j] else 0.0
  }

  function InputPart(k: Weights, x: Matrix, gate: nat, i: int, j: int): real {
    Dot(Row(x, i), Row(k.w, gate * k.hidden + j)) + Bias(k, gate, j)
  }

  function RecurrentPart(k: Weights, h: Matrix, gate: nat, i: int, j: int): real {
    Dot(Row(h, i), Row(k.r, gate * k.hidden + j)) + Bias(k, 3 + gate, j)
  }

  function UpdateGate(a: Activations, k: Weights, x: Matrix, h: Matrix, i: int, j: int): real {
    Sigmoid(a, InputPart(k, x, 0, i, j) + RecurrentPart(k, h, 0, i, j))
  }

  function ResetGate(a: Activations, k: Weights, x: Matrix, h: Matrix, i: int, j: int): real {
    Sigmoid(a, InputPart(k, x, 1, i, j) + RecurrentPart(k, h, 1, i, j))
  }

  /** The reset gate scales the recurrent product after it has been formed. */
  function CandidateInput(a: Activations, k: Weights, x: Matrix, h: Matrix, i: int, j: int): real {
    InputPart(k, x, 2, i, j) + ResetGate(a, k, x, h, i, j) * RecurrentPart(k, h, 2, i, j)
  }

  function Candidate(a: Activations, k: Weights, x: Matrix, h: Matrix, i: int, j: int): real {
    Tanh(a, CandidateInput(a, k, x, h, i, j))
  }

  function NextState(a: Activations, k: Weights, x: Matrix, h: Matrix, i: int, j: int): real {
    var z := UpdateGate(a, k, x, h, i, j);
    (1.0 - z) * Candidate(a, k, x, h, i, j) + z * At(h, i, j)
  }

  function Step(a: Activations, k: Weights, x: Matrix, h: Matrix): Matrix {
    Tabulate(|x.rows|, k.hidden, (i, j) => NextState(a, k, x, h, i, j))
  }

  /** The hidden state after each frame. */
  function States(a: Activations, k: Weights, xs: seq<Matrix>, h: Matrix): (s: seq<Matrix>)
    ensures |s| == |xs|
  {
    if xs == [] then []
    else
      var before := States(a, k, xs[..|xs| - 1], h);
      before + [Step(a, k, xs[|xs| - 1], if before == [] then h else before[|before| - 1])]
  }

  // ---- The same cell from whole-matrix operations ------------------------------

  function Plus(a: Matrix, b: Matrix): (m: Matrix)
    ensures Rectangular(m) && SameShape(m, a)
  {
    Map2(ADD, a, b)
  }

  function Times(a: Matrix, b: Matrix): (m: Matrix)
    ensures Rectangular(m) && SameShape(m, a)
  {
    Map2(MUL, a, b)
  }

  function Minus(a: Matrix, b: Matrix): (m: Matrix)
    ensures Rectangular(m) && SameShape(m, a)
  {
    Map2(SUB, a, b)
  }

  function BiasBlock(k: Weights, block: nat): seq<real>
    requires (block + 1) * k.hidden <= |k.b|
  {
    k.b[block * k.hidden..(block + 1) * k.hidden]
  }

  function PlusBias(m: Matrix, k: Weights, block: nat): (sum: Matrix)
    requires (block + 1) * k.hidden <= |k.b| && m.width == k.hidden
    ensures Rectangular(sum) && SameShape(sum, m)
  {
    Plus(m, Spread(BiasBlock(k, block), |m.rows|, m.width))
  }

  function InputBlock(k: Weights, x: Matrix, gate: nat): (m: Matrix)
    ensures Rectangular(m) && m.width == k.hidden && |m.rows| == |x.rows|
  {
    Columns(MatMul(x, Transpose(k.w)), gate * k.hidden, k.hidden)
  }

  function RecurrentBlock(k: Weights, h: Matrix, gate: nat): (m: Matrix)
    ensures Rectangular(m) && m.width == k.hidden && |m.rows| == |h.rows|
  {
    Columns(MatMul(h, Transpose(k.r)), gate * k.hidden, k.hidden)
  }

  function GateMatrix(a: Activations, k: Weights, x: Matrix, h: Matrix, gate: nat): (m: Matrix)
    requires Shaped(k, x, h) && gate < 2
    ensures Rectangular(m) && |m.rows| == |x.rows| && m.width == k.hidden
  {
    Map1(a.sigmoid, PlusBias(PlusBias(Plus(InputBlock(k, x, gate), RecurrentBlock(k, h, gate)), k, gate), k, 3 + gate))
  }

  function CandidateSum(a: Activations, k: Weights, x: Matrix, h: Matrix): (m: Matrix)
    requires Shaped(k, x, h)
    ensures Rectangular(m) && |m.rows| == |x.rows| && m.width == k.hidden
  {
    Plus(PlusBias(InputBlock(k, x, 2), k, 2), Times(GateMatrix(a, k, x, h, 1), PlusBias(RecurrentBlock(k, h, 2), k, 5)))
  }

  function CandidateMatrix(a: Activations, k: Weights, x: Matrix, h: Matrix): (m: Matrix)
    requires Shaped(k, x, h)
    ensures Rectangular(m) && |m.rows| == |x.rows| && m.width == k.hidden
  {
    Map1(a.tanh, CandidateSum(a, k, x, h))
  }

  function NewState(a: Activations, k: Weights, x: Matrix, h: Matrix): Matrix
    requires Shaped(k, x, h)
  {
    var z := GateMatrix(a, k, x, h, 0);
    Plus(Times(Minus(Spread([1.0], |z.rows|, z.width), z), CandidateMatrix(a, k, x, h)), Times(z, h))
  }

  // ---- They agree -----------------------------------------------------------------

  lemma BlockIndex(k: Weights, block: nat, blocks: nat, j: int)
    requires block < blocks && 0 <= j < k.hidden
    ensures 0 <= block * k.hidden + j < blocks * k.hidden && (block + 1) * k.hidden <= blocks * k.hidden
  {
    assert (block + 1) * k.hidden <= blocks * k.hidden;
  }

  lemma PlusBiasAt(m: Matrix, k: Weights, block: nat, i: int, j: int)
    requires Rectangular(m) && m.width == k.hidden && block < 6 && |k.b| == 6 * k.hidden
    requires 0 <= i < |m.rows| && 0 <= j < k.hidden
    ensures (block + 1) * k.hidden <= |k.b|
    ensures At(PlusBias(m, k, block), i, j) == At(m, i, j) + Bias(k, block, j)
  {
    BlockIndex(k, block, 6, j);
    var v := BiasBlock(k, block);
    assert v[j] == k.b[block * k.hidden + j];
    assert At(Spread(v, |m.rows|, m.width), i, j) == v[j];
  }

  lemma InputBlockAt(k: Weights, x: Matrix, gate: nat, i: int, j: int)
    requires Rectangular(k.w) && |k.w.rows| == 3 * k.hidden && Rectangular(x) && gate < 3
    requires 0 <= i < |x.rows| && 0 <= j < k.hidden
    ensures At(InputBlock(k, x, gate), i, j) == Dot(Row(x, i), Row(k.w, gate * k.hidden + j))
  {
    BlockIndex(k, gate, 3, j);
    ProductBlock(x, k.w, gate * k.hidden, k.hidden, i, j);
  }

  lemma RecurrentBlockAt(k: Weights, h: Matrix, gate: nat, i: int, j: int)
    requires Rectangular(k.r) && |k.r.rows| == 3 * k.hidden && Rectangular(h) && gate < 3
    requires 0 <= i < |h.rows| && 0 <= j < k.hidden
    ensures At(RecurrentBlock(k, h, gate), i, j) == Dot(Row(h, i), Row(k.r, gate * k.hidden + j))
  {
    BlockIndex(k, gate, 3, j);
    ProductBlock(h, k.r, gate * k.hidden, k.hidden, i, j);
  }

  lemma PlusAt(a: Matrix, b: Matrix, i: int, j: int)
    requires 0 <= i < |a.rows| && 0 <= j < a.width
    ensures At(Plus(a, b), i, j) == At(a, i, j) + At(b, i, j)
  {}

  lemma TimesAt(a: Matrix, b: Matrix, i: int, j: int)
    requires 0 <= i < |a.rows| && 0 <= j < a.width
    ensures At(Times(a, b), i, j) == At(a, i, j) * At(b, i, j)
  {}

  lemma OneMinusAt(b: Matrix, i: int, j: int)
    requires 0 <= i < |b.rows| && 0 <= j < b.width
    ensures At(Minus(Spread([1.0], |b.rows|, b.width), b), i, j) == 1.0 - At(b, i, j)
  {
    assert At(Spread([1.0], |b.rows|, b.width), i, j) == 1.0;
  }

  lemma TanhAt(a: Activations, m: Matrix, i: int, j: int)
    requires 0 <= i < |m.rows| && 0 <= j < m.width
    ensures At(Map1(a.tanh, m), i, j) == Tanh(a, At(m, i, j))
  {}

  lemma GateAt(a: Activations, k: Weights, x: Matrix, h: Matrix, gate: nat, i: int, j: int)
    requires Shaped(k, x, h) && gate < 2 && 0 <= i < |x.rows| && 0 <= j < k.hidden
    ensures At(GateMatrix(a, k, x, h, gate), i, j) == Sigmoid(a, InputPart(k, x, gate, i, j) + RecurrentPart(k, h, gate, i, j))
  {
    hide Dot, MatMul;
    InputBlockAt(k, x, gate, i, j);
    RecurrentBlockAt(k, h, gate, i, j);
    var sum := Plus(InputBlock(k, x, gate), RecurrentBlock(k, h, gate));
    PlusBiasAt(sum, k, gate, i, j);
    PlusBiasAt(PlusBias(sum, k, gate), k, 3 + gate, i, j);
    assert At(sum, i, j) == Dot(Row(x, i), Row(k.w, gate * k.hidden + j)) + Dot(Row(h, i), Row(k.r, gate * k.hidden + j));
  }

  lemma ResetAt(a: Activations, k: Weights, x: Matrix, h: Matrix, i: int, j: int)
    requires Shaped(k, x, h) && 0 <= i < |x.rows| && 0 <= j < k.hidden
    ensures At(Times(GateMatrix(a, k, x, h, 1), PlusBias(RecurrentBlock(k, h, 2), k, 5)), i, j)
         == ResetGate(a, k, x, h, i, j) * RecurrentPart(k, h, 2, i, j)
  {
    hide Dot, MatMul, GateMatrix, Times;
    GateAt(a, k, x, h, 1, i, j);
    RecurrentBlockAt(k, h, 2, i, j);
    PlusBiasAt(RecurrentBlock(k, h, 2), k, 5, i, j);
    TimesAt(GateMatrix(a, k, x, h, 1), PlusBias(RecurrentBlock(k, h, 2), k, 5), i, j);
  }

  lemma CandidateInputAt(a: Activations, k: Weights, x: Matrix, h: Matrix, i: int, j: int)
    requires Shaped(k, x, h) && 0 <= i < |x.rows| && 0 <= j < k.hidden
    ensures At(CandidateSum(a, k, x, h), i, j) == CandidateInput(a, k, x, h, i, j)
  {
    hide Dot, GateMatrix, Plus, Times, PlusBias, InputBlock, RecurrentBlock, At, ResetGate, RecurrentPart;
    ResetAt(a, k, x, h, i, j);
    InputBlockAt(k, x, 2, i, j);
    PlusBiasAt(InputBlock(k, x, 2), k, 2, i, j);
    PlusAt(PlusBias(InputBlock(k, x, 2), k, 2), Times(GateMatrix(a, k, x, h, 1), PlusBias(RecurrentBlock(k, h, 2), k, 5)), i, j);
  }

  lemma CandidateAt(a: Activations, k: Weights, x: Matrix, h: Matrix, i: int, j: int)
    requires Shaped(k, x, h) && 0 <= i < |x.rows| && 0 <= j < k.hidden
    ensures At(CandidateMatrix(a, k, x, h), i, j) == Candidate(a, k, x, h, i, j)
  {
    hide CandidateSum, CandidateInput, Map1, At;
    CandidateInputAt(a, k, x, h, i, j);
    TanhAt(a, CandidateSum(a, k, x, h), i, j);
  }

  lemma NewStateAt(a: Activations, k: Weights, x: Matrix, h: Matrix, i: int, j: int)
    requires Shaped(k, x, h) && 0 <= i < |x.rows| && 0 <= j < k.hidden
    ensures At(NewState(a, k, x, h), i, j) == NextState(a, k, x, h, i, j)
  {
    hide GateMatrix, CandidateMatrix, Candidate, Plus, Times, Minus;
    GateAt(a, k, x, h, 0, i, j);
    CandidateAt(a, k, x, h, i, j);
    var z := GateMatrix(a, k, x, h, 0);
    var one := Minus(Spread([1.0], |z.rows|, z.width), z);
    OneMinusAt(z, i, j);
    TimesAt(one, CandidateMatrix(a, k, x, h), i, j);
    TimesAt(z, h, i, j);
    PlusAt(Times(one, CandidateMatrix(a, k, x, h)), Times(z, h), i, j);
  }

  /** The whole-matrix cell is the GRU's own step. */
  lemma NewStateIsStep(a: Activations, k: Weights, x: Matrix, h: Matrix)
    requires Shaped(k, x, h)
    ensures NewState(a, k, x, h) == Step(a, k, x, h)
  {
    hide GateMatrix, CandidateMatrix, NextState;
    forall i, j | 0 <= i < |x.rows| && 0 <= j < k.hidden
      ensures At(NewState(a, k, x, h), i, j) == At(Step(a, k, x, h), i, j)
    {
      NewStateAt(a, k, x, h, i, j);
    }
    Extensional(NewState(a, k, x, h), Step(a, k, x, h));
  }
}
