/** The pass of scripts/prepare-deepfilter-webgpu.py that replaces every GRU by
    primitive nodes over new names. */
module GruPass {
  import opened Graphs
  import opened Options

  const HIDDEN: nat := 256
  const GRU_COUNT: nat := 5

  /** The names one expansion makes up: four initializers, then one per value. */
  datatype Local =
    | Axes0 | Split3 | Split6 | One
    | X | H0 | W | RWeights | B | Wt | Rt | Xw | Hr
    | Xz | Xr | Xh | Hz | HrGate | Hh | Wbz | Wbr | Wbh | Rbz | Rbr | Rbh
    | Z0 | Z1 | Z2 | Z | R0 | R1 | R2 | R
    | RecurrentH | ResetH | Candidate0 | Candidate1 | Candidate
    | OneMinusZ | New0 | New1 | New

  /** Names of the graph are Original; GruText says how a made name is spelled. */
  datatype Name = Original(text: string) | Made(gru: nat, local: Local)

  datatype Error = UnsupportedLayout | UnexpectedContract | SequenceLengths | OperandCount | MissingOutput | UnexpectedCount
  datatype Outcome = Expanded(nodes: seq<Node<Name>>) | Failed(error: Error)

  predicate BadLayout(attrs: Attrs) {
    || ("direction" in attrs && attrs["direction"] != Text("forward"))
    || ("layout" in attrs && attrs["layout"] != Number(0))
  }

  predicate BadContract(attrs: Attrs) {
    || "linear_before_reset" !in attrs || attrs["linear_before_reset"] != Number(1)
    || "hidden_size" !in attrs || attrs["hidden_size"] != Number(HIDDEN)
  }

  /** What the pass refuses in one GRU node, in the order it looks. */
  function Fault(node: Node<Name>): (fault: Option<Error>)
    requires node.kind.Gru?
    ensures fault.None? ==> |node.inputs| == 6 && node.inputs[4].None? && |node.outputs| >= 2
  {
    if BadLayout(node.kind.attrs) then Some(UnsupportedLayout)
    else if BadContract(node.kind.attrs) then Some(UnexpectedContract)
    else if |node.inputs| < 6 || node.inputs[4].Some? then Some(SequenceLengths)
    else if |node.inputs| > 6 then Some(OperandCount)
    else if |node.outputs| < 2 then Some(MissingOutput)
    else None
  }

  predicate Expandable(node: Node<Name>) { node.kind.Gru? ==> Fault(node).None? }

  predicate AllExpandable(nodes: seq<Node<Name>>) { forall i | 0 <= i < |nodes| :: Expandable(nodes[i]) }

  function Constants(k: nat): map<Name, Value> {
    map[Made(k, Axes0) := Axes([0]), Made(k, Split3) := Axes([HIDDEN, HIDDEN, HIDDEN]),
        Made(k, Split6) := Axes([HIDDEN, HIDDEN, HIDDEN, HIDDEN, HIDDEN, HIDDEN]), Made(k, One) := Vec([1.0])]
  }

  function ConstantsUpTo(n: nat): map<Name, Value> {
    if n == 0 then map[] else ConstantsUpTo(n - 1) + Constants(n - 1)
  }

  function Op1(kind: Kind, a: Option<Name>, out: Option<Name>): Node<Name> { Node(kind, [a], [out]) }

  function Op2(kind: Kind, a: Option<Name>, b: Option<Name>, out: Option<Name>): Node<Name> { Node(kind, [a, b], [out]) }

  function M(k: nat, l: Local): Option<Name> { Some(Made(k, l)) }

  /** The i-th emitted node. */
  function Emitted(node: Node<Name>, k: nat, i: nat): Node<Name>
    requires node.kind.Gru? && Fault(node).None? && i < 31
  {
    match i
    case 0 => Op2(Squeeze, node.inputs[0], M(k, Axes0), M(k, X))
    case 1 => Op2(Squeeze, node.inputs[5], M(k, Axes0), M(k, H0))
    case 2 => Op2(Squeeze, node.inputs[1], M(k, Axes0), M(k, W))
    case 3 => Op2(Squeeze, node.inputs[2], M(k, Axes0), M(k, RWeights))
    case 4 => Op2(Squeeze, node.inputs[3], M(k, Axes0), M(k, B))
    case 5 => Op1(Transpose, M(k, W), M(k, Wt))
    case 6 => Op1(Transpose, M(k, RWeights), M(k, Rt))
    case 7 => Op2(MatMul, M(k, X), M(k, Wt), M(k, Xw))
    case 8 => Op2(MatMul, M(k, H0), M(k, Rt), M(k, Hr))
    case 9 => Node(Split(1), [M(k, Xw), M(k, Split3)], [M(k, Xz), M(k, Xr), M(k, Xh)])
    case 10 => Node(Split(1), [M(k, Hr), M(k, Split3)], [M(k, Hz), M(k, HrGate), M(k, Hh)])
    case 11 => Node(Split(0), [M(k, B), M(k, Split6)], [M(k, Wbz), M(k, Wbr), M(k, Wbh), M(k, Rbz), M(k, Rbr), M(k, Rbh)])
    case 12 => Op2(Add, M(k, Xz), M(k, Hz), M(k, Z0))
    case 13 => Op2(Add, M(k, Z0), M(k, Wbz), M(k, Z1))
    case 14 => Op2(Add, M(k, Z1), M(k, Rbz), M(k, Z2))
    case 15 => Op1(Sigmoid, M(k, Z2), M(k, Z))
    case 16 => Op2(Add, M(k, Xr), M(k, HrGate), M(k, R0))
    case 17 => Op2(Add, M(k, R0), M(k, Wbr), M(k, R1))
    case 18 => Op2(Add, M(k, R1), M(k, Rbr), M(k, R2))
    case 19 => Op1(Sigmoid, M(k, R2), M(k, R))
    case 20 => Op2(Add, M(k, Hh), M(k, Rbh), M(k, RecurrentH))
    case 21 => Op2(Mul, M(k, R), M(k, RecurrentH), M(k, ResetH))
    case 22 => Op2(Add, M(k, Xh), M(k, Wbh), M(k, Candidate0))
    case 23 => Op2(Add, M(k, Candidate0), M(k, ResetH), M(k, Candidate1))
    case 24 => Op1(Tanh, M(k, Candidate1), M(k, Candidate))
    case 25 => Op2(Sub, M(k, One), M(k, Z), M(k, OneMinusZ))
    case 26 => Op2(Mul, M(k, OneMinusZ), M(k, Candidate), M(k, New0))
    case 27 => Op2(Mul, M(k, Z), M(k, H0), M(k, New1))
    case 28 => Op2(Add, M(k, New0), M(k, New1), M(k, New))
    case 29 => Op2(Unsqueeze, M(k, New), M(k, Axes0), node.outputs[1])
    case _ => Op2(Unsqueeze, node.outputs[1], M(k, Axes0), node.outputs[0])
  }

  function EmittedUpTo(node: Node<Name>, k: nat, n: nat): (made: seq<Node<Name>>)
    requires node.kind.Gru? && Fault(node).None? && n <= 31
    ensures |made| == n && forall i | 0 <= i < n :: made[i] == Emitted(node, k, i)
  {
    seq(n, i requires 0 <= i < n => Emitted(node, k, i))
  }

  function Expansion(node: Node<Name>, k: nat): seq<Node<Name>>
    requires node.kind.Gru? && Fault(node).None?
  {
    EmittedUpTo(node, k, 31)
  }

  function GruCount(nodes: seq<Node<Name>>): nat {
    if nodes == [] then 0 else GruCount(nodes[..|nodes| - 1]) + if nodes[|nodes| - 1].kind.Gru? then 1 else 0
  }

  /** GRUs are numbered in list order; every other node is kept. */
  function ExpandAll(nodes: seq<Node<Name>>): seq<Node<Name>>
    requires AllExpandable(nodes)
  {
    if nodes == [] then []
    else
      var before, last := nodes[..|nodes| - 1], nodes[|nodes| - 1];
      ExpandAll(before) + if last.kind.Gru? then Expansion(last, GruCount(before)) else [last]
  }

  lemma ExpandNone()
    ensures AllExpandable([]) && ExpandAll([]) == [] && GruCount([]) == 0
  {}

  lemma ExpandNext(nodes: seq<Node<Name>>, i: nat)
    requires i < |nodes| && AllExpandable(nodes[..i])
    ensures AllExpandable(nodes[..i + 1]) <==> Expandable(nodes[i])
    ensures GruCount(nodes[..i + 1]) == GruCount(nodes[..i]) + if nodes[i].kind.Gru? then 1 else 0
    ensures Expandable(nodes[i]) ==>
      ExpandAll(nodes[..i + 1])
        == ExpandAll(nodes[..i]) + if nodes[i].kind.Gru? then Expansion(nodes[i], GruCount(nodes[..i])) else [nodes[i]]
  {
    hide Expansion, Expandable;
    var upTo := nodes[..i + 1];
    assert upTo[..i] == nodes[..i] && upTo[i] == nodes[i];
    if Expandable(nodes[i]) {
      forall j | 0 <= j < |upTo| ensures Expandable(upTo[j]) {
        if j < i { assert Expandable(nodes[..i][j]); }
      }
    }
  }

  /** Appends one node to those already made. */
  method Op(ghost node: Node<Name>, ghost k: nat, made: seq<Node<Name>>, next: Node<Name>) returns (more: seq<Node<Name>>)
    requires node.kind.Gru? && Fault(node).None? && |made| < 31
    requires made == EmittedUpTo(node, k, |made|) && next == Emitted(node, k, |made|)
    ensures more == made + [next] && more == EmittedUpTo(node, k, |made| + 1)
  {
    more := made + [next];
  }

  /** Operands without their unit axis; both products and the bias in gates. */
  method EmitProducts(node: Node<Name>, k: nat) returns (made: seq<Node<Name>>)
    requires node.kind.Gru? && Fault(node).None?
    ensures made == EmittedUpTo(node, k, 12)
  {
    made := [];
    made := Op(node, k, made, Op2(Squeeze, node.inputs[0], M(k, Axes0), M(k, X)));
    made := Op(node, k, made, Op2(Squeeze, node.inputs[5], M(k, Axes0), M(k, H0)));
    made := Op(node, k, made, Op2(Squeeze, node.inputs[1], M(k, Axes0), M(k, W)));
    made := Op(node, k, made, Op2(Squeeze, node.inputs[2], M(k, Axes0), M(k, RWeights)));
    made := Op(node, k, made, Op2(Squeeze, node.inputs[3], M(k, Axes0), M(k, B)));
    made := Op(node, k, made, Op1(Transpose, M(k, W), M(k, Wt)));
    made := Op(node, k, made, Op1(Transpose, M(k, RWeights), M(k, Rt)));
    made := Op(node, k, made, Op2(MatMul, M(k, X), M(k, Wt), M(k, Xw)));
    made := Op(node, k, made, Op2(MatMul, M(k, H0), M(k, Rt), M(k, Hr)));
    made := Op(node, k, made, Node(Split(1), [M(k, Xw), M(k, Split3)], [M(k, Xz), M(k, Xr), M(k, Xh)]));
    made := Op(node, k, made, Node(Split(1), [M(k, Hr), M(k, Split3)], [M(k, Hz), M(k, HrGate), M(k, Hh)]));
    made := Op(node, k, made, Node(Split(0), [M(k, B), M(k, Split6)], [M(k, Wbz), M(k, Wbr), M(k, Wbh), M(k, Rbz), M(k, Rbr), M(k, Rbh)]));
  }

  /** The update and reset gates. */
  method EmitGates(node: Node<Name>, k: nat, products: seq<Node<Name>>) returns (made: seq<Node<Name>>)
    requires node.kind.Gru? && Fault(node).None? && products == EmittedUpTo(node, k, 12)
    ensures made == EmittedUpTo(node, k, 20)
  {
    made := products;
    made := Op(node, k, made, Op2(Add, M(k, Xz), M(k, Hz), M(k, Z0)));
    made := Op(node, k, made, Op2(Add, M(k, Z0), M(k, Wbz), M(k, Z1)));
    made := Op(node, k, made, Op2(Add, M(k, Z1), M(k, Rbz), M(k, Z2)));
    made := Op(node, k, made, Op1(Sigmoid, M(k, Z2), M(k, Z)));
    made := Op(node, k, made, Op2(Add, M(k, Xr), M(k, HrGate), M(k, R0)));
    made := Op(node, k, made, Op2(Add, M(k, R0), M(k, Wbr), M(k, R1)));
    made := Op(node, k, made, Op2(Add, M(k, R1), M(k, Rbr), M(k, R2)));
    made := Op(node, k, made, Op1(Sigmoid, M(k, R2), M(k, R)));
  }

  /** The candidate state; the reset gate scales the recurrent part. */
  method EmitCandidate(node: Node<Name>, k: nat, gates: seq<Node<Name>>) returns (made: seq<Node<Name>>)
    requires node.kind.Gru? && Fault(node).None? && gates == EmittedUpTo(node, k, 20)
    ensures made == EmittedUpTo(node, k, 25)
  {
    made := gates;
    made := Op(node, k, made, Op2(Add, M(k, Hh), M(k, Rbh), M(k, RecurrentH)));
    made := Op(node, k, made, Op2(Mul, M(k, R), M(k, RecurrentH), M(k, ResetH)));
    made := Op(node, k, made, Op2(Add, M(k, Xh), M(k, Wbh), M(k, Candidate0)));
    made := Op(node, k, made, Op2(Add, M(k, Candidate0), M(k, ResetH), M(k, Candidate1)));
    made := Op(node, k, made, Op1(Tanh, M(k, Candidate1), M(k, Candidate)));
  }

  /** The new state and the two outputs. */
  method EmitState(node: Node<Name>, k: nat, candidate: seq<Node<Name>>) returns (made: seq<Node<Name>>)
    requires node.kind.Gru? && Fault(node).None? && candidate == EmittedUpTo(node, k, 25)
    ensures made == Expansion(node, k)
  {
    made := candidate;
    made := Op(node, k, made, Op2(Sub, M(k, One), M(k, Z), M(k, OneMinusZ)));
    made := Op(node, k, made, Op2(Mul, M(k, OneMinusZ), M(k, Candidate), M(k, New0)));
    made := Op(node, k, made, Op2(Mul, M(k, Z), M(k, H0), M(k, New1)));
    made := Op(node, k, made, Op2(Add, M(k, New0), M(k, New1), M(k, New)));
    made := Op(node, k, made, Op2(Unsqueeze, M(k, New), M(k, Axes0), node.outputs[1]));
    made := Op(node, k, made, Op2(Unsqueeze, node.outputs[1], M(k, Axes0), node.outputs[0]));
  }

  class Graph {
    var nodes: seq<Node<Name>>
    var initializers: map<Name, Value>

    constructor (nodes: seq<Node<Name>>, initializers: map<Name, Value>)
      ensures this.nodes == nodes && this.initializers == initializers
    {
      this.nodes, this.initializers := nodes, initializers;
    }

    /** The nodes that replace one GRU; the graph gains the four initializers. */
    method ExpandGru(node: Node<Name>, index: nat) returns (r: Outcome)
      requires node.kind.Gru?
      modifies this`initializers
      ensures r.Expanded? <==> Fault(node).None?
      ensures r.Failed? ==> Fault(node) == Some(r.error)
      ensures r.Expanded? ==> r.nodes == Expansion(node, index) && initializers == old(initializers) + Constants(index)
    {
      hide EmittedUpTo, Emitted;
      var attrs := node.kind.attrs;
      if BadLayout(attrs) {
        return Failed(UnsupportedLayout);
      }
      if BadContract(attrs) {
        return Failed(UnexpectedContract);
      }
      if |node.inputs| < 6 || node.inputs[4].Some? {
        return Failed(SequenceLengths);
      }
      initializers := initializers[Made(index, Axes0) := Axes([0])][Made(index, Split3) := Axes([HIDDEN, HIDDEN, HIDDEN])]
        [Made(index, Split6) := Axes([HIDDEN, HIDDEN, HIDDEN, HIDDEN, HIDDEN, HIDDEN])];
      if |node.inputs| != 6 {
        return Failed(OperandCount);
      }
      if |node.outputs| < 2 {
        return Failed(MissingOutput);
      }
      var made := EmitProducts(node, index);
      made := EmitGates(node, index, made);
      made := EmitCandidate(node, index, made);
      initializers := initializers[Made(index, One) := Vec([1.0])];
      made := EmitState(node, index, made);
      return Expanded(made);
    }

    /** The whole pass: all or nothing. */
    method ExpandGrus() returns (r: Option<Error>)
      modifies this
      ensures r.None? <==> AllExpandable(old(nodes)) && GruCount(old(nodes)) == GRU_COUNT
      ensures r.None? ==> nodes == ExpandAll(old(nodes)) && initializers == old(initializers) + ConstantsUpTo(GRU_COUNT)
      ensures r.Some? ==> nodes == old(nodes)
    {
      hide Expansion, Fault, Constants, ExpandAll, GruCount;
      var made: seq<Node<Name>> := [];
      var count: nat := 0;
      var i := 0;
      ExpandNone();
      while i < |nodes|
        invariant 0 <= i <= |nodes| && nodes == old(nodes) && AllExpandable(nodes[..i])
        invariant made == ExpandAll(nodes[..i]) && count == GruCount(nodes[..i])
        invariant initializers == old(initializers) + ConstantsUpTo(count)
      {
        ExpandNext(nodes, i);
        if nodes[i].kind.Gru? {
          var expanded := ExpandGru(nodes[i], count);
          if expanded.Failed? {
            return Some(expanded.error);
          }
          made, count := made + expanded.nodes, count + 1;
        } else {
          made := made + [nodes[i]];
        }
        i := i + 1;
      }
      assert nodes[..i] == nodes && nodes == old(nodes);
      if count != GRU_COUNT {
        return Some(UnexpectedCount);
      }
      nodes := made;
      return None;
    }
  }
}
