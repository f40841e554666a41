/** ONNX graphs as node lists, evaluated in order over an environment of named
    tensors. Names are a type parameter; an empty ONNX name is an absent one. */
module Graphs {
  import opened Options
  import G = GruCell
  import T = Tensors

  datatype Value =
    | Axes(ints: seq<int>)
    | Vec(v: seq<real>)
    | Mat(m: T.Matrix)
    | Cube(ms: seq<T.Matrix>)
    | Tesseract(cs: seq<seq<T.Matrix>>)

  datatype Attr = Text(s: string) | Number(n: int)
  type Attrs = map<string, Attr>

  datatype Kind =
    | Squeeze | Unsqueeze | Transpose | MatMul | Split(axis: int) | Add | Sub | Mul | Sigmoid | Tanh | Relu
    | Conv(attrs: Attrs)
    | FusedConv(domain: string, attrs: Attrs)
    | Gru(attrs: Attrs)
    | Other(op: string, attrs: Attrs)

  datatype Node<N> = Node(kind: Kind, inputs: seq<Option<N>>, outputs: seq<Option<N>>)

  type Env<!N> = map<N, Value>

  /** Activations, convolution, and every operator or shape that the passes do
      not look inside are free. */
  datatype Semantics = Semantics(
    sigmoid: real -> real,
    tanh: real -> real,
    conv: (Attrs, seq<Option<Value>>) -> Option<Value>,
    other: (Kind, seq<Option<Value>>) -> Option<seq<Value>>)

  // ---- Operators -------------------------------------------------------------

  function MapValue(f: real -> real, v: Value): Option<Value> {
    match v
    case Axes(_) => None
    case Vec(x) => Some(Vec(seq(|x|, i requires 0 <= i < |x| => f(x[i]))))
    case Mat(m) => Some(Mat(T.Map1(f, m)))
    case Cube(ms) => Some(Cube(seq(|ms|, i requires 0 <= i < |ms| => T.Map1(f, ms[i]))))
    case Tesseract(cs) =>
      Some(Tesseract(seq(|cs|, i requires 0 <= i < |cs| => seq(|cs[i]|, j requires 0 <= j < |cs[i]| => T.Map1(f, cs[i][j])))))
  }

  /** Element-wise with the broadcasts a GRU cell needs: equal matrices, or a
      matrix beside a row or a single number. */
  function Combine(f: (real, real) -> real, a: Value, b: Value): Option<Value> {
    match (a, b)
    case (Mat(x), Mat(y)) => if T.SameShape(x, y) then Some(Mat(T.Map2(f, x, y))) else None
    case (Mat(x), Vec(v)) =>
      if |v| == x.width || |v| == 1 then Some(Mat(T.Map2(f, x, T.Spread(v, |x.rows|, x.width)))) else None
    case (Vec(v), Mat(y)) =>
      if |v| == y.width || |v| == 1 then Some(Mat(T.Map2(f, T.Spread(v, |y.rows|, y.width), y))) else None
    case _ => None
  }

  /** Removing axis 0 asks that its extent be one. */
  function SqueezeFirst(v: Value): Option<Value> {
    match v
    case Mat(m) => if |m.rows| == 1 then Some(Vec(m.rows[0])) else None
    case Cube(ms) => if |ms| == 1 then Some(Mat(ms[0])) else None
    case Tesseract(cs) => if |cs| == 1 then Some(Cube(cs[0])) else None
    case _ => None
  }

  function UnsqueezeFirst(v: Value): Option<Value> {
    match v
    case Vec(x) => Some(Mat(T.Matrix(|x|, [x])))
    case Mat(m) => Some(Cube([m]))
    case Cube(ms) => Some(Tesseract([ms]))
    case _ => None
  }

  function Sum(sizes: seq<int>): int { if sizes == [] then 0 else Sum(sizes[..|sizes| - 1]) + sizes[|sizes| - 1] }

  /** Splitting the columns of a matrix or the entries of a vector. */
  function SplitValue(axis: int, v: Value, sizes: seq<int>): Option<seq<Value>> {
    if exists i | 0 <= i < |sizes| :: sizes[i] < 0 || Sum(sizes[..i]) < 0 then None
    else if axis == 1 && v.Mat? && Sum(sizes) == v.m.width then
      Some(seq(|sizes|, i requires 0 <= i < |sizes| => Mat(T.Columns(v.m, Sum(sizes[..i]), sizes[i]))))
    else if axis == 0 && v.Vec? && Sum(sizes) == |v.v| && forall i | 0 <= i < |sizes| :: Sum(sizes[..i]) + sizes[i] <= |v.v| then
      Some(seq(|sizes|, i requires 0 <= i < |sizes| => Vec(v.v[Sum(sizes[..i])..Sum(sizes[..i]) + sizes[i]])))
    else None
  }

  function Single(v: Option<Value>): Option<seq<Value>> { if v.Some? then Some([v.value]) else None }

  function Activated(f: real -> real, sem: Semantics, kind: Kind, ins: seq<Option<Value>>): Option<seq<Value>> {
    if |ins| == 1 then
      if ins[0].None? then None else Single(MapValue(f, ins[0].value))
    else sem.other(kind, ins)
  }

  predicate Pair(ins: seq<Option<Value>>) { |ins| == 2 && ins[0].Some? && ins[1].Some? }

  function Arithmetic(f: (real, real) -> real, sem: Semantics, kind: Kind, ins: seq<Option<Value>>): Option<seq<Value>> {
    if Pair(ins) && Combine(f, ins[0].value, ins[1].value).Some? then Single(Combine(f, ins[0].value, ins[1].value))
    else sem.other(kind, ins)
  }

  /** Squeeze and Unsqueeze along axis 0; the data operand is not optional. */
  predicate Reshapes(kind: Kind, v: Value) {
    if kind.Unsqueeze? then v.Vec? || v.Mat? || v.Cube? else v.Mat? || v.Cube? || v.Tesseract?
  }

  function Reshaped(sem: Semantics, kind: Kind, ins: seq<Option<Value>>): Option<seq<Value>> {
    if |ins| == 2 && ins[0].None? then None
    else if |ins| == 2 && ins[1] == Some(Axes([0])) && Reshapes(kind, ins[0].value) then
      if kind.Unsqueeze? then Single(UnsqueezeFirst(ins[0].value))
      else Single(SqueezeFirst(ins[0].value))
    else sem.other(kind, ins)
  }

  function Product(sem: Semantics, kind: Kind, ins: seq<Option<Value>>): Option<seq<Value>> {
    if Pair(ins) && ins[0].value.Mat? && ins[1].value.Mat? && ins[0].value.m.width == |ins[1].value.m.rows| then
      Some([Mat(T.MatMul(ins[0].value.m, ins[1].value.m))])
    else sem.other(kind, ins)
  }

  function Transposed(sem: Semantics, kind: Kind, ins: seq<Option<Value>>): Option<seq<Value>> {
    if |ins| == 1 && ins[0].Some? && ins[0].value.Mat? then Some([Mat(T.Transpose(ins[0].value.m))])
    else sem.other(kind, ins)
  }

  function Divided(sem: Semantics, kind: Kind, ins: seq<Option<Value>>): Option<seq<Value>>
    requires kind.Split?
  {
    if Pair(ins) && ins[1].value.Axes? && SplitValue(kind.axis, ins[0].value, ins[1].value.ints).Some? then
      SplitValue(kind.axis, ins[0].value, ins[1].value.ints)
    else sem.other(kind, ins)
  }

  /** The activations a FusedConv may carry and still be split. */
  function ActivationKind(name: string): Option<Kind> {
    if name == "Relu" then Some(Relu) else if name == "Sigmoid" then Some(Sigmoid) else None
  }

  function ActivationOf(attrs: Attrs): Option<Kind> {
    if "activation" in attrs && attrs["activation"].Text? then ActivationKind(attrs["activation"].s) else None
  }

  function ActivationMap(sem: Semantics, kind: Kind): real -> real { if kind.Relu? then T.RELU else sem.sigmoid }

  /** The com.microsoft operator is a convolution followed by its activation; a
      fourth input would be added before the activation. */
  function FusedConvolution(sem: Semantics, kind: Kind, ins: seq<Option<Value>>): Option<seq<Value>>
    requires kind.FusedConv?
  {
    if ActivationOf(kind.attrs).Some? && |ins| <= 3 then
      var y := sem.conv(kind.attrs - {"activation"}, ins);
      if y.None? then None else Single(MapValue(ActivationMap(sem, ActivationOf(kind.attrs).value), y.value))
    else sem.other(kind, ins)
  }

  // ---- The recurrent operator -------------------------------------------------

  /** The attributes under which the operator is the plain forward GRU. */
  predicate PlainGru(attrs: Attrs) {
    && attrs.Keys <= {"direction", "layout", "linear_before_reset", "hidden_size"}
    && ("direction" in attrs ==> attrs["direction"] == Text("forward"))
    && ("layout" in attrs ==> attrs["layout"] == Number(0))
    && "linear_before_reset" in attrs && attrs["linear_before_reset"] == Number(1)
    && "hidden_size" in attrs && attrs["hidden_size"].Number? && 0 <= attrs["hidden_size"].n
  }

  function Zeros(n: nat): seq<real> { seq(n, i => 0.0) }

  /** Weights from the operands W[1, 3H, I], R[1, 3H, H] and B[1, 6H]; an absent
      bias is zero. */
  function GruWeights(hidden: nat, ins: seq<Option<Value>>): Option<G.Weights> {
    if |ins| == 6 && ins[1].Some? && ins[1].value.Cube? && |ins[1].value.ms| == 1
       && ins[2].Some? && ins[2].value.Cube? && |ins[2].value.ms| == 1
    then
      if ins[3].None? then Some(G.Weights(ins[1].value.ms[0], ins[2].value.ms[0], Zeros(6 * hidden), hidden))
      else if ins[3].value.Mat? && |ins[3].value.m.rows| == 1 then
        Some(G.Weights(ins[1].value.ms[0], ins[2].value.ms[0], ins[3].value.m.rows[0], hidden))
      else None
    else None
  }

  function GruFrames(ins: seq<Option<Value>>): Option<seq<T.Matrix>> {
    if |ins| == 6 && ins[0].Some? && ins[0].value.Cube? then Some(ins[0].value.ms) else None
  }

  /** The state before the first frame; an absent one is zero. */
  function GruInitial(hidden: nat, xs: seq<T.Matrix>, ins: seq<Option<Value>>): Option<T.Matrix> {
    if |ins| != 6 then None
    else if ins[5].None? then
      if xs == [] then None else Some(T.Tabulate(|xs[0].rows|, hidden, (i, j) => 0.0))
    else if ins[5].value.Cube? && |ins[5].value.ms| == 1 then Some(ins[5].value.ms[0])
    else None
  }

  /** Operands that fit together: every frame has the shape the cell asks for. */
  predicate GruFits(attrs: Attrs, ins: seq<Option<Value>>) {
    && PlainGru(attrs) && |ins| == 6 && ins[4].None?
    && var k := GruWeights(attrs["hidden_size"].n, ins);
    && var xs := GruFrames(ins);
    && k.Some? && xs.Some?
    && var h := GruInitial(attrs["hidden_size"].n, xs.value, ins);
    && h.Some? && (forall i | 0 <= i < |xs.value| :: G.Shaped(k.value, xs.value[i], h.value))
  }

  function LastState(s: seq<T.Matrix>, h: T.Matrix): T.Matrix { if s == [] then h else s[|s| - 1] }

  /** Y[sequence, 1, batch, H] and Y_h[1, batch, H]. */
  function Recurrent(sem: Semantics, kind: Kind, ins: seq<Option<Value>>): Option<seq<Value>>
    requires kind.Gru?
  {
    if GruFits(kind.attrs, ins) then
      var hidden := kind.attrs["hidden_size"].n;
      var h := GruInitial(hidden, GruFrames(ins).value, ins).value;
      var s := G.States(G.Activations(sem.sigmoid, sem.tanh), GruWeights(hidden, ins).value, GruFrames(ins).value, h);
      Some([Tesseract(seq(|s|, i requires 0 <= i < |s| => [s[i]])), Cube([LastState(s, h)])])
    else sem.other(kind, ins)
  }

  // ---- Running a node list -------------------------------------------------------

  function Evaluate(sem: Semantics, kind: Kind, ins: seq<Option<Value>>): Option<seq<Value>> {
    match kind
    case Squeeze => Reshaped(sem, kind, ins)
    case Unsqueeze => Reshaped(sem, kind, ins)
    case Transpose => Transposed(sem, kind, ins)
    case MatMul => Product(sem, kind, ins)
    case Split(_) => Divided(sem, kind, ins)
    case Add => Arithmetic(T.ADD, sem, kind, ins)
    case Sub => Arithmetic(T.SUB, sem, kind, ins)
    case Mul => Arithmetic(T.MUL, sem, kind, ins)
    case Sigmoid => Activated(sem.sigmoid, sem, kind, ins)
    case Tanh => Activated(sem.tanh, sem, kind, ins)
    case Relu => Activated(T.RELU, sem, kind, ins)
    case Conv(attrs) => if |ins| <= 3 then Single(sem.conv(attrs, ins)) else None
    case FusedConv(_, _) => FusedConvolution(sem, kind, ins)
    case Gru(_) => Recurrent(sem, kind, ins)
    case Other(_, _) => sem.other(kind, ins)
  }

  predicate Known<N(!new)>(env: Env<N>, names: seq<Option<N>>) {
    forall i | 0 <= i < |names| :: names[i].Some? ==> names[i].value in env
  }

  function Gather<N(!new)>(env: Env<N>, names: seq<Option<N>>): (ins: seq<Option<Value>>)
    requires Known(env, names)
    ensures |ins| == |names|
  {
    seq(|names|, i requires 0 <= i < |names| => if names[i].None? then None else Some(env[names[i].value]))
  }

  /** Trailing results that have no name are dropped, as are absent ones. */
  function Bind<N(!new)>(env: Env<N>, outs: seq<Option<N>>, values: seq<Value>): Env<N>
    requires |outs| <= |values|
  {
    if outs == [] then env
    else
      var last := |outs| - 1;
      var before := Bind(env, outs[..last], values);
      if outs[last].None? then before else before[outs[last].value := values[last]]
  }

  function ApplyNode<N(!new)>(sem: Semantics, env: Env<N>, node: Node<N>): Option<Env<N>> {
    if !Known(env, node.inputs) then None
    else
      var values := Evaluate(sem, node.kind, Gather(env, node.inputs));
      if values.None? || |values.value| < |node.outputs| then None
      else Some(Bind(env, node.outputs, values.value))
  }

  /** The environment after the whole list, unless some node cannot be evaluated. */
  function Run<N(!new)>(sem: Semantics, env: Env<N>, nodes: seq<Node<N>>): Option<Env<N>> {
    if nodes == [] then Some(env)
    else
      var before := Run(sem, env, nodes[..|nodes| - 1]);
      if before.None? then None else ApplyNode(sem, before.value, nodes[|nodes| - 1])
  }

  lemma {:induction false} RunAppend<N(!new)>(sem: Semantics, env: Env<N>, a: seq<Node<N>>, b: seq<Node<N>>)
    ensures Run(sem, env, a + b) == if Run(sem, env, a).None? then None else Run(sem, Run(sem, env, a).value, b)
  {
    hide ApplyNode;
    if b == [] {
      assert a + b == a;
    } else {
      RunAppend(sem, env, a, b[..|b| - 1]);
      assert (a + b)[..|a + b| - 1] == a + b[..|b| - 1];
    }
  }

  // ---- Single assignment ------------------------------------------------------------

  function Named<N>(outs: seq<Option<N>>): set<N> { set j | 0 <= j < |outs| && outs[j].Some? :: outs[j].value }

  function Outputs<N>(node: Node<N>): set<N> { Named(node.outputs) }

  function Defined<N>(nodes: seq<Node<N>>): set<N> {
    if nodes == [] then {} else Defined(nodes[..|nodes| - 1]) + Outputs(nodes[|nodes| - 1])
  }

  /** Every operand is already known, every result is new and named once. */
  predicate NodeSsa<N(==)>(known: set<N>, node: Node<N>) {
    && (forall j | 0 <= j < |node.inputs| :: node.inputs[j].Some? ==> node.inputs[j].value in known)
    && (forall j | 0 <= j < |node.outputs| :: node.outputs[j].Some? ==> node.outputs[j].value !in known)
    && (forall i, j | 0 <= i < j < |node.outputs| :: node.outputs[i].Some? ==> node.outputs[i] != node.outputs[j])
  }

  predicate Ssa<N(==)>(known: set<N>, nodes: seq<Node<N>>) {
    nodes == [] || (Ssa(known, nodes[..|nodes| - 1]) && NodeSsa(known + Defined(nodes[..|nodes| - 1]), nodes[|nodes| - 1]))
  }

  lemma {:induction false} DefinedAppend<N>(a: seq<Node<N>>, b: seq<Node<N>>)
    ensures Defined(a + b) == Defined(a) + Defined(b)
  {
    if b == [] {
      assert a + b == a;
    } else {
      DefinedAppend(a, b[..|b| - 1]);
      assert (a + b)[..|a + b| - 1] == a + b[..|b| - 1];
    }
  }

  lemma {:induction false} SsaAppend<N>(known: set<N>, a: seq<Node<N>>, b: seq<Node<N>>)
    ensures Ssa(known, a + b) <==> Ssa(known, a) && Ssa(known + Defined(a), b)
  {
    hide NodeSsa, Outputs;
    if b == [] {
      assert a + b == a;
    } else {
      SsaAppend(known, a, b[..|b| - 1]);
      assert (a + b)[..|a + b| - 1] == a + b[..|b| - 1];
      DefinedAppend(a, b[..|b| - 1]);
      assert known + Defined(a) + Defined(b[..|b| - 1]) == known + (Defined(a) + Defined(b[..|b| - 1]));
    }
  }

  // ---- Evaluating against a known solution --------------------------------------------

  function Read<N(!new)>(sol: N -> Value, names: seq<Option<N>>): (ins: seq<Option<Value>>)
    ensures |ins| == |names|
  {
    seq(|names|, i requires 0 <= i < |names| => if names[i].None? then None else Some(sol(names[i].value)))
  }

  /** The valuation satisfies the node's equation. */
  predicate Holds<N(!new)>(sem: Semantics, sol: N -> Value, node: Node<N>) {
    var values := Evaluate(sem, node.kind, Read(sol, node.inputs));
    && values.Some? && |node.outputs| <= |values.value|
    && (forall j | 0 <= j < |node.outputs| :: node.outputs[j].Some? ==> sol(node.outputs[j].value) == values.value[j])
  }

  predicate Follows<N(!new)>(env: Env<N>, sol: N -> Value) { forall n | n in env :: env[n] == sol(n) }

  lemma LastNamed<N(!new)>(outs: seq<Option<N>>)
    requires outs != []
    ensures Named(outs) == Named(outs[..|outs| - 1]) + if outs[|outs| - 1].None? then {} else {outs[|outs| - 1].value}
  {
    var last := |outs| - 1;
    forall n | n in Named(outs) ensures n in Named(outs[..last]) || Some(n) == outs[last] {
      var j :| 0 <= j < |outs| && outs[j] == Some(n);
      if j < last { assert outs[..last][j] == Some(n); }
    }
    forall n | n in Named(outs[..last]) ensures n in Named(outs) {
      var j :| 0 <= j < last && outs[..last][j] == Some(n);
      assert outs[j] == Some(n);
    }
  }

  lemma {:induction false} BindFollows<N(!new)>(env: Env<N>, sol: N -> Value, outs: seq<Option<N>>, values: seq<Value>)
    requires Follows(env, sol) && |outs| <= |values|
    requires forall j | 0 <= j < |outs| :: outs[j].Some? ==> sol(outs[j].value) == values[j]
    ensures Follows(Bind(env, outs, values), sol)
    ensures Bind(env, outs, values).Keys == env.Keys + Named(outs)
  {
    if outs != [] {
      var last := |outs| - 1;
      BindFollows(env, sol, outs[..last], values);
      LastNamed(outs);
    }
  }

  lemma NodeFollows<N(!new)>(sem: Semantics, env: Env<N>, sol: N -> Value, node: Node<N>)
    requires Follows(env, sol) && Known(env, node.inputs) && Holds(sem, sol, node)
    ensures ApplyNode(sem, env, node).Some? && Follows(ApplyNode(sem, env, node).value, sol)
    ensures ApplyNode(sem, env, node).value.Keys == env.Keys + Outputs(node)
  {
    hide Evaluate, Bind;
    assert Gather(env, node.inputs) == Read(sol, node.inputs);
    BindFollows(env, sol, node.outputs, Evaluate(sem, node.kind, Read(sol, node.inputs)).value);
  }

  /** A single-assignment list whose equations all hold evaluates to the solution. */
  lemma {:induction false} SolutionIsRun<N(!new)>(sem: Semantics, env: Env<N>, sol: N -> Value, nodes: seq<Node<N>>)
    requires Follows(env, sol) && Ssa(env.Keys, nodes)
    requires forall i | 0 <= i < |nodes| :: Holds(sem, sol, nodes[i])
    ensures Run(sem, env, nodes).Some? && Follows(Run(sem, env, nodes).value, sol)
    ensures Run(sem, env, nodes).value.Keys == env.Keys + Defined(nodes)
  {
    hide Holds, ApplyNode, Follows, Outputs;
    if nodes != [] {
      SolutionIsRun(sem, env, sol, nodes[..|nodes| - 1]);
      NodeFollows(sem, Run(sem, env, nodes[..|nodes| - 1]).value, sol, nodes[|nodes| - 1]);
    }
  }

  /** A node that no environment can evaluate stops the list. */
  lemma {:induction false} StuckNode<N(!new)>(sem: Semantics, env: Env<N>, nodes: seq<Node<N>>, i: nat)
    requires i < |nodes|
    requires forall e: Env<N> :: Run(sem, env, nodes[..i]) == Some(e) ==> ApplyNode(sem, e, nodes[i]).None?
    ensures Run(sem, env, nodes).None?
  {
    hide ApplyNode;
    if i + 1 == |nodes| {
    } else {
      var before := nodes[..|nodes| - 1];
      assert before[..i] == nodes[..i] && before[i] == nodes[i];
      StuckNode(sem, env, before, i);
    }
  }
}
