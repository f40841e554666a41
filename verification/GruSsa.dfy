/** The expansion of a GRU is in single-assignment form. */
module GruSsa {
  import opened Graphs
  import opened GruPass
  import opened Options

  /** The emitted node that defines a local, or -1 for an initializer. */
  function Rank(l: Local): int {
    match l
    case Axes0 => -1 case Split3 => -1 case Split6 => -1 case One => -1
    case X => 0 case H0 => 1 case W => 2 case RWeights => 3 case B => 4 case Wt => 5 case Rt => 6
    case Xw => 7 case Hr => 8
    case Xz => 9 case Xr => 9 case Xh => 9 case Hz => 10 case HrGate => 10 case Hh => 10
    case Wbz => 11 case Wbr => 11 case Wbh => 11 case Rbz => 11 case Rbr => 11 case Rbh => 11
    case Z0 => 12 case Z1 => 13 case Z2 => 14 case Z => 15 case R0 => 16 case R1 => 17 case R2 => 18 case R => 19
    case RecurrentH => 20 case ResetH => 21 case Candidate0 => 22 case Candidate1 => 23 case Candidate => 24
    case OneMinusZ => 25 case New0 => 26 case New1 => 27 case New => 28
  }

  function NameRank(node: Node<Name>, k: nat, n: Name): int
    requires |node.outputs| >= 2
  {
    if n.Made? then (if n.gru == k then Rank(n.local) else -1)
    else if node.outputs[1] == Some(n) then 29
    else if node.outputs[0] == Some(n) then 30
    else -1
  }

  predicate OriginalOnly(node: Node<Name>) {
    && (forall j | 0 <= j < |node.inputs| :: node.inputs[j].Some? ==> node.inputs[j].value.Original?)
    && (forall j | 0 <= j < |node.outputs| :: node.outputs[j].Some? ==> node.outputs[j].value.Original?)
  }

  /** A GRU in single-assignment position whose made-up names are still unused. */
  ghost predicate Placed(known: set<Name>, node: Node<Name>, k: nat) {
    && node.kind.Gru? && Fault(node).None? && OriginalOnly(node) && NodeSsa(known, node)
    && (forall l: Local :: Made(k, l) in known <==> Rank(l) < 0)
  }

  lemma ProductsDefine(node: Node<Name>, k: nat, i: nat, j: nat)
    requires node.kind.Gru? && Fault(node).None? && 0 <= i < 12 && j < |Emitted(node, k, i).outputs|
    ensures var out := Emitted(node, k, i).outputs[j]; out.Some? && out.value.Made? && out.value.gru == k && Rank(out.value.local) == i
  {}

  lemma GatesDefine(node: Node<Name>, k: nat, i: nat, j: nat)
    requires node.kind.Gru? && Fault(node).None? && 12 <= i < 20 && j < |Emitted(node, k, i).outputs|
    ensures var out := Emitted(node, k, i).outputs[j]; out.Some? && out.value.Made? && out.value.gru == k && Rank(out.value.local) == i
  {}

  lemma StateDefines(node: Node<Name>, k: nat, i: nat, j: nat)
    requires node.kind.Gru? && Fault(node).None? && 20 <= i < 29 && j < |Emitted(node, k, i).outputs|
    ensures var out := Emitted(node, k, i).outputs[j]; out.Some? && out.value.Made? && out.value.gru == k && Rank(out.value.local) == i
  {}

  lemma DefinesItsRank(known: set<Name>, node: Node<Name>, k: nat, i: nat, j: nat)
    requires Placed(known, node, k) && i < 31 && j < |Emitted(node, k, i).outputs|
    ensures Emitted(node, k, i).outputs[j].Some? ==> NameRank(node, k, Emitted(node, k, i).outputs[j].value) == i
  {
    hide NodeSsa, Rank;
    if i < 12 {
      ProductsDefine(node, k, i, j);
    } else if i < 20 {
      GatesDefine(node, k, i, j);
    } else if i < 29 {
      StateDefines(node, k, i, j);
    } else {
      OutputsDiffer(known, node);
    }
  }

  lemma OutputsDiffer(known: set<Name>, node: Node<Name>)
    requires NodeSsa(known, node) && |node.outputs| >= 2
    ensures node.outputs[0].Some? ==> node.outputs[0] != node.outputs[1]
  {}

  /** Which output of its node a local is. */
  function Slot(l: Local): nat {
    match l
    case Xr => 1 case Xh => 2 case HrGate => 1 case Hh => 2
    case Wbr => 1 case Wbh => 2 case Rbz => 3 case Rbr => 4 case Rbh => 5
    case _ => 0
  }

  lemma ProductIsDefined(node: Node<Name>, k: nat, l: Local)
    requires node.kind.Gru? && Fault(node).None? && 0 <= Rank(l) < 12
    ensures Slot(l) < |Emitted(node, k, Rank(l)).outputs| && Emitted(node, k, Rank(l)).outputs[Slot(l)] == Some(Made(k, l))
  {}

  lemma StateIsDefined(node: Node<Name>, k: nat, l: Local)
    requires node.kind.Gru? && Fault(node).None? && 12 <= Rank(l)
    ensures Slot(l) < |Emitted(node, k, Rank(l)).outputs| && Emitted(node, k, Rank(l)).outputs[Slot(l)] == Some(Made(k, l))
  {}

  lemma LocalIsDefined(node: Node<Name>, k: nat, l: Local)
    requires node.kind.Gru? && Fault(node).None? && 0 <= Rank(l)
    ensures Slot(l) < |Emitted(node, k, Rank(l)).outputs| && Emitted(node, k, Rank(l)).outputs[Slot(l)] == Some(Made(k, l))
  {
    hide Slot, Emitted;
    if Rank(l) < 12 {
      ProductIsDefined(node, k, l);
    } else {
      StateIsDefined(node, k, l);
    }
  }

  lemma OutputsAreRank(known: set<Name>, node: Node<Name>, k: nat, i: nat, n: Name)
    requires Placed(known, node, k) && i < 31
    ensures n in Outputs(Emitted(node, k, i)) <==> NameRank(node, k, n) == i
  {
    assert node.kind.Gru? && Fault(node).None?;
    hide NodeSsa;
    hide Emitted, Rank, Slot, Fault;
    var e := Emitted(node, k, i);
    if n in Outputs(e) {
      var j :| 0 <= j < |e.outputs| && e.outputs[j] == Some(n);
      DefinesItsRank(known, node, k, i, j);
    }
    if NameRank(node, k, n) == i {
      if n.Made? {
        LocalIsDefined(node, k, n.local);
      } else {
        LastOutputs(node, k);
        assert e.outputs[0] == Some(n);
      }
    }
  }

  lemma LastOutputs(node: Node<Name>, k: nat)
    requires node.kind.Gru? && Fault(node).None?
    ensures Emitted(node, k, 29).outputs == [node.outputs[1]] && Emitted(node, k, 30).outputs == [node.outputs[0]]
  {}

  lemma SqueezesRead(node: Node<Name>, k: nat, i: nat, j: nat)
    requires node.kind.Gru? && Fault(node).None? && i < 5 && j < |Emitted(node, k, i).inputs|
    ensures Emitted(node, k, i).inputs[j] in node.inputs || Emitted(node, k, i).inputs[j] == Some(Made(k, Axes0))
  {}

  lemma GatesRead(node: Node<Name>, k: nat, i: nat, j: nat)
    requires node.kind.Gru? && Fault(node).None? && 5 <= i < 20 && j < |Emitted(node, k, i).inputs|
    ensures var a := Emitted(node, k, i).inputs[j]; a.Some? && a.value.Made? && a.value.gru == k && Rank(a.value.local) < i
  {}

  lemma StateReads(node: Node<Name>, k: nat, i: nat, j: nat)
    requires node.kind.Gru? && Fault(node).None? && 20 <= i < 29 && j < |Emitted(node, k, i).inputs|
    ensures var a := Emitted(node, k, i).inputs[j]; a.Some? && a.value.Made? && a.value.gru == k && Rank(a.value.local) < i
  {}

  lemma LastInputs(node: Node<Name>, k: nat)
    requires node.kind.Gru? && Fault(node).None?
    ensures Emitted(node, k, 29).inputs == [Some(Made(k, New)), Some(Made(k, Axes0))]
    ensures Emitted(node, k, 30).inputs == [node.outputs[1], Some(Made(k, Axes0))]
  {}

  lemma OperandRank(known: set<Name>, node: Node<Name>, k: nat, a: Option<Name>)
    requires Placed(known, node, k) && a in node.inputs && a.Some?
    ensures NameRank(node, k, a.value) < 0 && a.value in known
  {}

  /** Operands come from the graph, from an initializer, or from an earlier node. */
  lemma ReadsEarlier(known: set<Name>, node: Node<Name>, k: nat, i: nat, j: nat)
    requires Placed(known, node, k) && i < 31 && j < |Emitted(node, k, i).inputs|
    ensures var a := Emitted(node, k, i).inputs[j]; a.Some? ==> NameRank(node, k, a.value) < i
    ensures var a := Emitted(node, k, i).inputs[j]; a.Some? && NameRank(node, k, a.value) < 0 ==> a.value in known
  {
    var a := Emitted(node, k, i).inputs[j];
    assert node.kind.Gru? && Fault(node).None? && OriginalOnly(node);
    assert forall l: Local :: Made(k, l) in known <==> Rank(l) < 0;
    hide NodeSsa, Emitted, Fault, Placed;
    if i < 5 {
      SqueezesRead(node, k, i, j);
      if a.Some? && a in node.inputs { OperandRank(known, node, k, a); }
    } else if i < 20 {
      GatesRead(node, k, i, j);
    } else if i < 29 {
      StateReads(node, k, i, j);
    } else {
      LastInputs(node, k);
    }
  }

  lemma {:induction false} DefinedUpTo(known: set<Name>, node: Node<Name>, k: nat, i: nat, n: Name)
    requires Placed(known, node, k) && i <= 31
    ensures n in Defined(EmittedUpTo(node, k, i)) <==> 0 <= NameRank(node, k, n) < i
  {
    assert node.kind.Gru? && Fault(node).None?;
    hide Emitted, Outputs, NameRank, Placed, Fault;
    if i > 0 {
      DefinedUpTo(known, node, k, i - 1, n);
      OutputsAreRank(known, node, k, i - 1, n);
      assert EmittedUpTo(node, k, i)[..i - 1] == EmittedUpTo(node, k, i - 1);
    }
  }

  lemma OneOutputEach(known: set<Name>, node: Node<Name>, k: nat, i: nat, a: nat, b: nat)
    requires node.kind.Gru? && Fault(node).None? && i < 31 && a < b < |Emitted(node, k, i).outputs|
    ensures Emitted(node, k, i).outputs[a] != Emitted(node, k, i).outputs[b]
  {}

  lemma NextIsSsa(known: set<Name>, node: Node<Name>, k: nat, i: nat)
    requires Placed(known, node, k) && i < 31
    ensures NodeSsa(known + Defined(EmittedUpTo(node, k, i)), Emitted(node, k, i))
  {
    assert node.kind.Gru? && Fault(node).None?;
    hide Emitted, Fault, Defined, NameRank, EmittedUpTo;
    var e, now := Emitted(node, k, i), known + Defined(EmittedUpTo(node, k, i));
    forall j | 0 <= j < |e.inputs| && e.inputs[j].Some? ensures e.inputs[j].value in now {
      ReadsEarlier(known, node, k, i, j);
      DefinedUpTo(known, node, k, i, e.inputs[j].value);
    }
    forall j | 0 <= j < |e.outputs| && e.outputs[j].Some? ensures e.outputs[j].value !in now {
      DefinesItsRank(known, node, k, i, j);
      DefinedUpTo(known, node, k, i, e.outputs[j].value);
      if e.outputs[j].value in known { KnownHasNoRank(known, node, k, e.outputs[j].value); }
    }
    forall a, b | 0 <= a < b < |e.outputs| && e.outputs[a].Some? ensures e.outputs[a] != e.outputs[b] {
      OneOutputEach(known, node, k, i, a, b);
    }
  }

  lemma KnownHasNoRank(known: set<Name>, node: Node<Name>, k: nat, n: Name)
    requires Placed(known, node, k) && n in known
    ensures NameRank(node, k, n) < 0
  {
    assert |node.outputs| >= 2;
    hide Fault, Rank;
    if !n.Made? {
      assert NodeSsa(known, node);
      assert node.outputs[0] != Some(n) && node.outputs[1] != Some(n);
    }
  }

  lemma {:induction false} ExpansionIsSsaUpTo(known: set<Name>, node: Node<Name>, k: nat, i: nat)
    requires Placed(known, node, k) && i <= 31
    ensures Ssa(known, EmittedUpTo(node, k, i))
  {
    assert node.kind.Gru? && Fault(node).None?;
    hide Emitted, NodeSsa, Placed, Fault, Defined;
    if i > 0 {
      ExpansionIsSsaUpTo(known, node, k, i - 1);
      NextIsSsa(known, node, k, i - 1);
      assert EmittedUpTo(node, k, i)[..i - 1] == EmittedUpTo(node, k, i - 1);
    }
  }

  /** The emitted list reads only what is known or earlier in it, defines every
      name once, and defines exactly the made-up names and the GRU's own outputs. */
  lemma ExpansionIsSsa(known: set<Name>, node: Node<Name>, k: nat)
    requires Placed(known, node, k)
    ensures Ssa(known, Expansion(node, k))
    ensures forall n :: n in Defined(Expansion(node, k)) <==>
      (n.Made? && n.gru == k && Rank(n.local) >= 0) || (n.Original? && Some(n) in node.outputs[..2])
  {
    assert node.kind.Gru? && Fault(node).None? && OriginalOnly(node);
    hide Fault, Placed, EmittedUpTo, Defined;
    ExpansionIsSsaUpTo(known, node, k, 31);
    forall n ensures n in Defined(Expansion(node, k)) <==>
      (n.Made? && n.gru == k && Rank(n.local) >= 0) || (n.Original? && Some(n) in node.outputs[..2])
    {
      DefinedUpTo(known, node, k, 31, n);
      RankAtMost(node, k, n);
      assert node.outputs[..2] == [node.outputs[0], node.outputs[1]];
    }
  }

  lemma RankAtMost(node: Node<Name>, k: nat, n: Name)
    requires |node.outputs| >= 2
    ensures NameRank(node, k, n) < 31
  {}
}
