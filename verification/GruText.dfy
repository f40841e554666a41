/** The GRU pass over graphs whose names are text: the made-up names are spelled with
    a prefix and a number, which nothing in the pass checks to be free. */
module GruText {
  import opened Graphs
  import opened GruGraph
  import opened GruPass
  import opened GruPreserves
  import opened GruSsa
  import opened Options

  // ---- Spelling ------------------------------------------------------------------------

  function Suffix(l: Local): string {
    match l
    case Axes0 => "axes0" case Split3 => "split3" case Split6 => "split6" case One => "one"
    case X => "x" case H0 => "h0" case W => "w" case RWeights => "rweights" case B => "b" case Wt => "wt" case Rt => "rt"
    case Xw => "xw" case Hr => "hr" case Xz => "xz" case Xr => "xr" case Xh => "xh" case Hz => "hz"
    case HrGate => "hrgate" case Hh => "hh" case Wbz => "wbz" case Wbr => "wbr" case Wbh => "wbh"
    case Rbz => "rbz" case Rbr => "rbr" case Rbh => "rbh" case Z0 => "z0" case Z1 => "z1" case Z2 => "z2" case Z => "z"
    case R0 => "r0" case R1 => "r1" case R2 => "r2" case R => "r" case RecurrentH => "recurrent_h"
    case ResetH => "reset_h" case Candidate0 => "candidate0" case Candidate1 => "candidate1" case Candidate => "candidate"
    case OneMinusZ => "one_minus_z" case New0 => "new0" case New1 => "new1" case New => "new"
  }

  /** Decimal digits, most significant first. */
  function Digits(n: nat): (s: string)
    ensures |s| > 0 && forall i | 0 <= i < |s| :: '0' <= s[i] <= '9'
  {
    if n < 10 then [(('0' as int) + n) as char] else Digits(n / 10) + [(('0' as int) + n % 10) as char]
  }

  function Spelled(k: nat, l: Local): string { "webgpu_gru_" + Digits(k) + "_" + Suffix(l) }

  function Number(s: string): int {
    if s == [] then 0 else 10 * Number(s[..|s| - 1]) + (s[|s| - 1] as int - '0' as int)
  }

  lemma {:induction false} DigitsReadBack(n: nat)
    ensures Number(Digits(n)) == n
  {
    if n < 10 {
      assert Digits(n)[..0] == [] && Number([]) == 0;
    } else {
      DigitsReadBack(n / 10);
      assert Digits(n)[..|Digits(n)| - 1] == Digits(n / 10);
    }
  }

  /** Which local a suffix names. */
  function FromSuffix(s: string): Local {
    match |s|
    case 1 => if s[0] == 'x' then X else if s[0] == 'w' then W else if s[0] == 'b' then B else if s[0] == 'z' then Z else R
    case 2 =>
      if s[0] == 'x' then (if s[1] == 'w' then Xw else if s[1] == 'z' then Xz else if s[1] == 'r' then Xr else Xh)
      else if s[0] == 'h' then
        (if s[1] == '0' then H0 else if s[1] == 'r' then Hr else if s[1] == 'z' then Hz else Hh)
      else if s[0] == 'w' then Wt
      else if s[0] == 'z' then (if s[1] == '0' then Z0 else if s[1] == '1' then Z1 else Z2)
      else (if s[1] == 't' then Rt else if s[1] == '0' then R0 else if s[1] == '1' then R1 else R2)
    case 3 =>
      if s[0] == 'w' then (if s[2] == 'z' then Wbz else if s[2] == 'r' then Wbr else Wbh)
      else if s[0] == 'r' then (if s[2] == 'z' then Rbz else if s[2] == 'r' then Rbr else Rbh)
      else if s[0] == 'o' then One else New
    case 4 => if s[3] == '0' then New0 else New1
    case 5 => Axes0
    case 6 => if s[0] == 'h' then HrGate else if s[5] == '3' then Split3 else Split6
    case 7 => ResetH
    case 8 => RWeights
    case 9 => Candidate
    case 10 => if s[9] == '0' then Candidate0 else Candidate1
    case _ => if |s| > 0 && s[0] == 'r' then RecurrentH else OneMinusZ
  }

  lemma SuffixReadBack(l: Local)
    ensures FromSuffix(Suffix(l)) == l
  {}

  /** Two made-up names are spelled alike only if they are the same name, so no
      expansion defines another's names. */
  lemma SpelledApart(k: nat, l: Local, k': nat, l': Local)
    requires Spelled(k, l) == Spelled(k', l')
    ensures k == k' && l == l'
  {
    hide Suffix, FromSuffix, Digits;
    var head := "webgpu_gru_";
    var a, b := Digits(k) + "_" + Suffix(l), Digits(k') + "_" + Suffix(l');
    assert Spelled(k, l) == head + a && Spelled(k', l') == head + b;
    assert a == Spelled(k, l)[|head|..] && b == Spelled(k', l')[|head|..];
    UnderscoreEnds(Digits(k), Suffix(l), Digits(k'), Suffix(l'));
    DigitsReadBack(k);
    DigitsReadBack(k');
    SuffixReadBack(l);
    SuffixReadBack(l');
  }

  predicate NoUnderscore(s: string) { forall i | 0 <= i < |s| :: s[i] != '_' }

  lemma UnderscoreEnds(a: string, x: string, b: string, y: string)
    requires a + "_" + x == b + "_" + y && NoUnderscore(a) && NoUnderscore(b)
    ensures a == b && x == y
  {
    var whole := a + "_" + x;
    assert whole[|a|] == '_' && whole[|b|] == '_';
    assert |a| == |b|;
    assert a == whole[..|a|] && b == whole[..|b|];
    assert x == whole[|a| + 1..] && y == whole[|b| + 1..];
  }

  // ---- Renaming a graph ------------------------------------------------------------------

  function RenameOne<N, M>(f: N -> M, name: Option<N>): Option<M> { if name.None? then None else Some(f(name.value)) }

  function RenameEach<N, M>(f: N -> M, names: seq<Option<N>>): (s: seq<Option<M>>)
    ensures |s| == |names| && forall i | 0 <= i < |s| :: s[i] == RenameOne(f, names[i])
  {
    seq(|names|, i requires 0 <= i < |names| => RenameOne(f, names[i]))
  }

  function Rename<N, M>(f: N -> M, node: Node<N>): Node<M> {
    Node(node.kind, RenameEach(f, node.inputs), RenameEach(f, node.outputs))
  }

  function RenameAll<N, M>(f: N -> M, nodes: seq<Node<N>>): (s: seq<Node<M>>)
    ensures |s| == |nodes| && forall i | 0 <= i < |s| :: s[i] == Rename(f, nodes[i])
  {
    seq(|nodes|, i requires 0 <= i < |nodes| => Rename(f, nodes[i]))
  }

  ghost predicate Injective<N(!new), M>(f: N -> M, used: N -> bool) { forall a, b | used(a) && used(b) && f(a) == f(b) :: a == b }

  predicate Among<N>(used: N -> bool, names: seq<Option<N>>) { forall i | 0 <= i < |names| && names[i].Some? :: used(names[i].value) }

  predicate UsesOnly<N>(used: N -> bool, node: Node<N>) { Among(used, node.inputs) && Among(used, node.outputs) }

  /** The two environments agree on the used names. */
  ghost predicate Carries<N(!new), M(!new)>(f: N -> M, used: N -> bool, a: Env<N>, b: Env<M>) {
    forall n | used(n) :: (n in a <==> f(n) in b) && (n in a ==> b[f(n)] == a[n])
  }

  ghost predicate BothCarry<N(!new), M(!new)>(f: N -> M, used: N -> bool, a: Option<Env<N>>, b: Option<Env<M>>) {
    a.Some? == b.Some? && (a.Some? ==> Carries(f, used, a.value, b.value))
  }

  lemma GatherCarried<N(!new), M(!new)>(f: N -> M, used: N -> bool, a: Env<N>, b: Env<M>, names: seq<Option<N>>)
    requires Carries(f, used, a, b) && Among(used, names)
    ensures Known(a, names) == Known(b, RenameEach(f, names))
    ensures Known(a, names) ==> Gather(a, names) == Gather(b, RenameEach(f, names))
  {
    forall i | 0 <= i < |names| && names[i].Some? ensures names[i].value in a <==> RenameEach(f, names)[i].value in b {
      assert used(names[i].value);
    }
    if Known(a, names) {
      forall i | 0 <= i < |names| ensures Gather(a, names)[i] == Gather(b, RenameEach(f, names))[i] {
        if names[i].Some? { assert used(names[i].value); }
      }
    }
  }

  lemma {:induction false} BindCarried<N(!new), M(!new)>(f: N -> M, used: N -> bool, a: Env<N>, b: Env<M>, outs: seq<Option<N>>, values: seq<Value>)
    requires Injective(f, used) && Carries(f, used, a, b) && Among(used, outs) && |outs| <= |values|
    ensures Carries(f, used, Bind(a, outs, values), Bind(b, RenameEach(f, outs), values))
  {
    if outs != [] {
      var last := |outs| - 1;
      assert Among(used, outs[..last]);
      BindCarried(f, used, a, b, outs[..last], values);
      assert RenameEach(f, outs)[..last] == RenameEach(f, outs[..last]);
      if outs[last].Some? { assert used(outs[last].value); }
    }
  }

  lemma NodeCarried<N(!new), M(!new)>(f: N -> M, used: N -> bool, sem: Semantics, a: Env<N>, b: Env<M>, node: Node<N>)
    requires Injective(f, used) && Carries(f, used, a, b) && UsesOnly(used, node)
    ensures BothCarry(f, used, ApplyNode(sem, a, node), ApplyNode(sem, b, Rename(f, node)))
  {
    hide Evaluate, Gather, Bind, Carries;
    GatherCarried(f, used, a, b, node.inputs);
    if Known(a, node.inputs) {
      var values := Evaluate(sem, node.kind, Gather(a, node.inputs));
      if values.Some? && |node.outputs| <= |values.value| {
        BindCarried(f, used, a, b, node.outputs, values.value);
      }
    }
  }

  /** A graph means the same under any names, as long as no two names become one. */
  lemma {:induction false} RunCarried<N(!new), M(!new)>(f: N -> M, used: N -> bool, sem: Semantics, a: Env<N>, b: Env<M>, nodes: seq<Node<N>>)
    requires Injective(f, used) && Carries(f, used, a, b) && forall i | 0 <= i < |nodes| :: UsesOnly(used, nodes[i])
    ensures BothCarry(f, used, Run(sem, a, nodes), Run(sem, b, RenameAll(f, nodes)))
  {
    hide Carries, UsesOnly, ApplyNode, Injective;
    if nodes != [] {
      var before, last := nodes[..|nodes| - 1], nodes[|nodes| - 1];
      RunCarried(f, used, sem, a, b, before);
      assert RenameAll(f, nodes)[..|nodes| - 1] == RenameAll(f, before);
      if Run(sem, a, before).Some? {
        NodeCarried(f, used, sem, Run(sem, a, before).value, Run(sem, b, RenameAll(f, before)).value, last);
      }
    }
  }

  ghost predicate SameKnown<N(!new), M(!new)>(f: N -> M, used: N -> bool, a: set<N>, b: set<M>) {
    forall n | used(n) :: n in a <==> f(n) in b
  }

  lemma NodeSsaCarried<N(!new), M(!new)>(f: N -> M, used: N -> bool, a: set<N>, b: set<M>, node: Node<N>)
    requires Injective(f, used) && SameKnown(f, used, a, b) && UsesOnly(used, node)
    ensures NodeSsa(a, node) <==> NodeSsa(b, Rename(f, node))
  {
    var r := Rename(f, node);
    forall j | 0 <= j < |node.inputs| && node.inputs[j].Some?
      ensures node.inputs[j].value in a <==> r.inputs[j].value in b { assert used(node.inputs[j].value); }
    forall j | 0 <= j < |node.outputs| && node.outputs[j].Some?
      ensures node.outputs[j].value in a <==> r.outputs[j].value in b { assert used(node.outputs[j].value); }
    forall i, j | 0 <= i < j < |node.outputs| && node.outputs[i].Some?
      ensures node.outputs[i] == node.outputs[j] <==> r.outputs[i] == r.outputs[j]
    {
      assert used(node.outputs[i].value);
      if node.outputs[j].Some? { assert used(node.outputs[j].value); }
    }
  }

  lemma OutputsCarried<N(!new), M(!new)>(f: N -> M, used: N -> bool, node: Node<N>)
    requires Injective(f, used) && UsesOnly(used, node)
    ensures SameKnown(f, used, Outputs(node), Outputs(Rename(f, node)))
  {
    var r := Rename(f, node);
    forall n | used(n) ensures n in Outputs(node) <==> f(n) in Outputs(r) {
      if n in Outputs(node) {
        var j :| 0 <= j < |node.outputs| && node.outputs[j] == Some(n);
        assert r.outputs[j] == Some(f(n));
      }
      if f(n) in Outputs(r) {
        var j :| 0 <= j < |r.outputs| && r.outputs[j] == Some(f(n));
        assert used(node.outputs[j].value);
      }
    }
  }

  /** Single assignment is a matter of which names are the same. */
  lemma {:induction false} SsaCarried<N(!new), M(!new)>(f: N -> M, used: N -> bool, a: set<N>, b: set<M>, nodes: seq<Node<N>>)
    requires Injective(f, used) && SameKnown(f, used, a, b) && forall i | 0 <= i < |nodes| :: UsesOnly(used, nodes[i])
    ensures Ssa(a, nodes) <==> Ssa(b, RenameAll(f, nodes))
    ensures SameKnown(f, used, Defined(nodes), Defined(RenameAll(f, nodes)))
  {
    hide NodeSsa, UsesOnly, Injective, Outputs;
    if nodes != [] {
      var before, last := nodes[..|nodes| - 1], nodes[|nodes| - 1];
      SsaCarried(f, used, a, b, before);
      assert RenameAll(f, nodes)[..|nodes| - 1] == RenameAll(f, before);
      OutputsCarried(f, used, last);
      NodeSsaCarried(f, used, a + Defined(before), b + Defined(RenameAll(f, before)), last);
    }
  }

  // ---- The pass over text ------------------------------------------------------------------

  function Spelling(n: Name): string { if n.Original? then n.text else Spelled(n.gru, n.local) }

  function Lift(s: string): Name { Original(s) }

  /** The text of an original name is no spelling of the first `total` expansions. */
  ghost predicate Free(s: string, total: nat) { forall k: nat, l: Local | k < total :: s != Spelled(k, l) }

  ghost predicate NodeFree(node: Node<string>, total: nat) {
    && (forall i | 0 <= i < |node.inputs| && node.inputs[i].Some? :: Free(node.inputs[i].value, total))
    && (forall i | 0 <= i < |node.outputs| && node.outputs[i].Some? :: Free(node.outputs[i].value, total))
  }

  /** Nothing in the graph or its environment is spelled like a made-up name. */
  ghost predicate AllFree(env: Env<string>, graph: seq<Node<string>>, total: nat) {
    (forall s | s in env :: Free(s, total)) && forall i | 0 <= i < |graph| :: NodeFree(graph[i], total)
  }

  ghost function Usable(total: nat): Name -> bool { (n: Name) => if n.Original? then Free(n.text, total) else n.gru < total }

  lemma SpellingApart(total: nat)
    ensures Injective(Spelling, Usable(total))
  {
    hide Spelled;
    forall a, b | Usable(total)(a) && Usable(total)(b) && Spelling(a) == Spelling(b) ensures a == b {
      if a.Made? && b.Made? {
        SpelledApart(a.gru, a.local, b.gru, b.local);
      }
    }
  }

  function LiftEnv(env: Env<string>): Env<Name> { map s | s in env :: Original(s) := env[s] }

  function TextConstant(k: nat): Env<string> {
    map[Spelled(k, Axes0) := Axes([0]), Spelled(k, Split3) := Axes([HIDDEN, HIDDEN, HIDDEN]),
        Spelled(k, Split6) := Axes([HIDDEN, HIDDEN, HIDDEN, HIDDEN, HIDDEN, HIDDEN]), Spelled(k, One) := Vec([1.0])]
  }

  function TextConstants(total: nat): Env<string> {
    if total == 0 then map[] else TextConstants(total - 1) + TextConstant(total - 1)
  }

  /** The pass on a graph of text: each GRU replaced by its expansion, spelled out. */
  function ExpandText(graph: seq<Node<string>>): seq<Node<string>>
    requires AllExpandable(RenameAll(Lift, graph))
  {
    RenameAll(Spelling, ExpandAll(RenameAll(Lift, graph)))
  }

  lemma ConstantCarried(total: nat, k: nat, n: Name)
    requires k < total && Usable(total)(n)
    ensures n in Constants(k) <==> Spelling(n) in TextConstant(k)
    ensures n in Constants(k) ==> TextConstant(k)[Spelling(n)] == Constants(k)[n]
  {
    hide Spelled;
    SpelledOnce(k, n);
    var axes, three, six, one := Spelled(k, Axes0), Spelled(k, Split3), Spelled(k, Split6), Spelled(k, One);
    SpelledOnce(k, Made(k, Axes0));
    SpelledOnce(k, Made(k, Split3));
    SpelledOnce(k, Made(k, Split6));
    SpelledOnce(k, Made(k, One));
    assert n.Original? ==> n.text !in {axes, three, six, one};
  }

  /** Which name has a spelling of the k-th expansion. */
  lemma SpelledOnce(k: nat, n: Name)
    ensures n.Made? ==> forall l: Local :: Spelling(n) == Spelled(k, l) <==> n == Made(k, l)
  {
    hide Spelled;
    if n.Made? {
      forall l: Local | Spelling(n) == Spelled(k, l) ensures n == Made(k, l) { SpelledApart(n.gru, n.local, k, l); }
    }
  }

  lemma ConstantsCarried(total: nat, k: nat)
    requires k <= total
    ensures Carries(Spelling, Usable(total), ConstantsUpTo(k), TextConstants(k))
  {
    hide Spelled, Free, Constants, TextConstant;
    if k > 0 {
      ConstantsCarried(total, k - 1);
      forall n | Usable(total)(n)
        ensures (n in ConstantsUpTo(k) <==> Spelling(n) in TextConstants(k))
             && (n in ConstantsUpTo(k) ==> TextConstants(k)[Spelling(n)] == ConstantsUpTo(k)[n])
      {
        ConstantCarried(total, k - 1, n);
      }
    }
  }

  lemma StartCarried(env: Env<string>, total: nat)
    requires forall s | s in env :: Free(s, total)
    ensures Carries(Spelling, Usable(total), LiftEnv(env) + ConstantsUpTo(total), env + TextConstants(total))
  {
    hide Spelled;
    ConstantsCarried(total, total);
    var e, c := LiftEnv(env), ConstantsUpTo(total);
    var a, b := e + c, env + TextConstants(total);
    forall n | Usable(total)(n) ensures (n in a <==> Spelling(n) in b) && (n in a ==> b[Spelling(n)] == a[n]) {
      ConstantsHave(total, n);
      if n.Made? { assert Spelling(n) !in env; }
    }
  }

  /** Expansions use only original names that the graph used and their own. */
  lemma {:induction false} ExpandedUses(nodes: seq<Node<Name>>, total: nat)
    requires AllExpandable(nodes) && GruCount(nodes) <= total
    requires forall i | 0 <= i < |nodes| :: UsesOnly(Usable(total), nodes[i])
    ensures forall i | 0 <= i < |ExpandAll(nodes)| :: UsesOnly(Usable(total), ExpandAll(nodes)[i])
  {
    if nodes != [] {
      var before, last := nodes[..|nodes| - 1], nodes[|nodes| - 1];
      LastExpansion(nodes);
      hide ExpandAll, GruCount, UsesOnly, Expandable, Expansion, AllExpandable;
      ExpandedUses(before, total);
      if last.kind.Gru? {
        forall i: nat | i < 31 ensures UsesOnly(Usable(total), Emitted(last, GruCount(before), i)) {
          EmittedUses(last, GruCount(before), total, i);
        }
      }
    }
  }

  lemma EmittedUses(node: Node<Name>, k: nat, total: nat, i: nat)
    requires node.kind.Gru? && Fault(node).None? && UsesOnly(Usable(total), node) && k < total && i < 31
    ensures UsesOnly(Usable(total), Emitted(node, k, i))
  {
    hide Free, Emitted;
    forall l: Local ensures Usable(total)(Made(k, l)) {}
    if i < 12 { FirstUses(node, k, total, i); } else if i < 28 { GatesUse(node, k, total, i); } else { LastUses(node, k, total, i); }
  }

  lemma FirstUses(node: Node<Name>, k: nat, total: nat, i: nat)
    requires node.kind.Gru? && Fault(node).None? && UsesOnly(Usable(total), node) && i < 12
    requires forall l: Local :: Usable(total)(Made(k, l))
    ensures UsesOnly(Usable(total), Emitted(node, k, i))
  {
    hide Free, Usable;
  }

  lemma GatesUse(node: Node<Name>, k: nat, total: nat, i: nat)
    requires node.kind.Gru? && Fault(node).None? && 12 <= i < 28
    requires forall l: Local :: Usable(total)(Made(k, l))
    ensures UsesOnly(Usable(total), Emitted(node, k, i))
  {
    hide Free, Usable;
  }

  lemma LastUses(node: Node<Name>, k: nat, total: nat, i: nat)
    requires node.kind.Gru? && Fault(node).None? && UsesOnly(Usable(total), node) && 28 <= i < 31
    requires forall l: Local :: Usable(total)(Made(k, l))
    ensures UsesOnly(Usable(total), Emitted(node, k, i))
  {
    hide Free, Usable;
  }

  // ---- What the pass keeps -------------------------------------------------------------------

  /** The graph is one the pass accepts, with fitting operands. */
  ghost predicate Accepted(sem: Semantics, env: Env<string>, graph: seq<Node<string>>) {
    Convertible(sem, LiftEnv(env), RenameAll(Lift, graph))
  }

  ghost predicate Faithful(sem: Semantics, env: Env<string>, graph: seq<Node<string>>)
    requires Accepted(sem, env, graph)
  {
    AllExact(sem, LiftEnv(env), RenameAll(Lift, graph))
  }

  ghost predicate Keeps(total: nat, a: Env<string>, b: Env<string>) {
    forall s | Free(s, total) :: (s in a <==> s in b) && (s in a ==> a[s] == b[s])
  }

  ghost predicate Always(s: string) { true }

  lemma Lifted(sem: Semantics, env: Env<string>, graph: seq<Node<string>>)
    ensures BothCarry(Lift, Always, Run(sem, env, graph), Run(sem, LiftEnv(env), RenameAll(Lift, graph)))
  {
    assert Injective(Lift, Always);
    forall i | 0 <= i < |graph| ensures UsesOnly(Always, graph[i]) {}
    forall s | Always(s) ensures (s in env <==> Lift(s) in LiftEnv(env)) && (s in env ==> LiftEnv(env)[Lift(s)] == env[s]) {}
    RunCarried(Lift, Always, sem, env, LiftEnv(env), graph);
  }

  lemma LiftedUses(env: Env<string>, graph: seq<Node<string>>, total: nat)
    requires AllFree(env, graph, total)
    ensures forall i | 0 <= i < |graph| :: UsesOnly(Usable(total), RenameAll(Lift, graph)[i])
  {
    hide Free;
    forall i | 0 <= i < |graph| ensures UsesOnly(Usable(total), RenameAll(Lift, graph)[i]) {
      assert NodeFree(graph[i], total);
    }
  }

  /** If no name of the graph is spelled like a made-up one, the rewritten graph runs
      exactly when the original does and every GRU is exact; then every name that is
      not made up has its original value. */
  lemma TextPreserves(sem: Semantics, env: Env<string>, graph: seq<Node<string>>, total: nat)
    requires Accepted(sem, env, graph) && AllFree(env, graph, total) && GruCount(RenameAll(Lift, graph)) <= total
    ensures AllExpandable(RenameAll(Lift, graph))
    ensures Run(sem, env + TextConstants(total), ExpandText(graph)).Some?
       <==> Run(sem, env, graph).Some? && Faithful(sem, env, graph)
    ensures Run(sem, env + TextConstants(total), ExpandText(graph)).Some? ==>
      Keeps(total, Run(sem, env + TextConstants(total), ExpandText(graph)).value, Run(sem, env, graph).value)
  {
    hide Run, ExpandAll, Convertible, AllExact, Free, TextConstants, ConstantsUpTo, GruCount, UsesOnly, NodeFree, AllExpandable;
    var nodes := RenameAll(Lift, graph);
    LiftedIsOriginal(env);
    ExpandingPreserves(sem, LiftEnv(env), nodes, total);
    Lifted(sem, env, graph);
    SpellingApart(total);
    StartCarried(env, total);
    LiftedUses(env, graph, total);
    ExpandedUses(nodes, total);
    RunCarried(Spelling, Usable(total), sem, LiftEnv(env) + ConstantsUpTo(total), env + TextConstants(total), ExpandAll(nodes));
    var a, b := Run(sem, env + TextConstants(total), ExpandText(graph)), Run(sem, env, graph);
    if a.Some? {
      var c, d := Run(sem, LiftEnv(env) + ConstantsUpTo(total), ExpandAll(nodes)).value, Run(sem, LiftEnv(env), nodes).value;
      forall s | Free(s, total) ensures (s in a.value <==> s in b.value) && (s in a.value ==> a.value[s] == b.value[s]) {
        assert Usable(total)(Lift(s)) && Spelling(Lift(s)) == s && Always(s);
        assert Lift(s) in c <==> Lift(s) in d;
      }
    }
  }

  /** The rewritten graph of text is in single-assignment form too. */
  lemma TextKeepsSsa(known: set<string>, graph: seq<Node<string>>, total: nat)
    requires var nodes := RenameAll(Lift, graph); AllExpandable(nodes) && Plain(nodes) && GruCount(nodes) <= total
    requires Ssa(known, graph) && (forall s | s in known :: Free(s, total)) && forall i | 0 <= i < |graph| :: NodeFree(graph[i], total)
    ensures Ssa(known + TextConstants(total).Keys, ExpandText(graph))
  {
    hide ExpandAll, Free, TextConstants, ConstantsUpTo, GruCount, UsesOnly, NodeFree, AllExpandable, Plain, Ssa, Spelled, Rank;
    var nodes := RenameAll(Lift, graph);
    var names := set s | s in known :: Lift(s);
    assert Injective(Lift, Always) && SameKnown(Lift, Always, known, names);
    forall i | 0 <= i < |graph| ensures UsesOnly(Always, graph[i]) { AlwaysUses(graph[i]); }
    SsaCarried(Lift, Always, known, names, graph);
    ExpandingKeepsSsa(names, nodes, total);
    LiftedUses(map[], graph, total);
    ExpandedUses(nodes, total);
    SpellingApart(total);
    ConstantsCarried(total, total);
    forall n | Usable(total)(n)
      ensures n in names + ConstantsUpTo(total).Keys <==> Spelling(n) in known + TextConstants(total).Keys
    {
      ConstantsHave(total, n);
      KnownSpelling(known, names, total, n);
    }
    SsaCarried(Spelling, Usable(total), names + ConstantsUpTo(total).Keys, known + TextConstants(total).Keys, ExpandAll(nodes));
  }

  lemma AlwaysUses(node: Node<string>)
    ensures UsesOnly(Always, node)
  {}

  lemma KnownSpelling(known: set<string>, names: set<Name>, total: nat, n: Name)
    requires Usable(total)(n) && (forall s | s in known :: Free(s, total)) && names == set s | s in known :: Lift(s)
    ensures n in names <==> Spelling(n) in known
  {
    hide Spelled;
  }

  lemma LiftedIsOriginal(env: Env<string>)
    ensures OnlyOriginal(LiftEnv(env))
  {}

  // ---- A name in the way -------------------------------------------------------------------

  /** The first emitted node takes the GRU's input without its unit axis. */
  function TakeInput(node: Node<string>, k: nat): Node<string>
    requires |node.inputs| > 0
  {
    Node(Squeeze, [node.inputs[0], Some(Spelled(k, Axes0))], [Some(Spelled(k, X))])
  }

  lemma {:induction false} NotBound(env: Env<string>, outs: seq<Option<string>>, values: seq<Value>, s: string)
    requires |outs| <= |values| && Some(s) !in outs
    ensures s in Bind(env, outs, values) <==> s in env
    ensures s in env ==> Bind(env, outs, values)[s] == env[s]
  {
    if outs != [] {
      assert outs[|outs| - 1] in outs;
      NotBound(env, outs[..|outs| - 1], values, s);
    }
  }

  lemma {:induction false} NotDefined(sem: Semantics, env: Env<string>, nodes: seq<Node<string>>, s: string)
    requires (forall i | 0 <= i < |nodes| :: Some(s) !in nodes[i].outputs) && s in env && Run(sem, env, nodes).Some?
    ensures s in Run(sem, env, nodes).value && Run(sem, env, nodes).value[s] == env[s]
  {
    if nodes != [] {
      var before, last := nodes[..|nodes| - 1], nodes[|nodes| - 1];
      NotDefined(sem, env, before, s);
      var e := Run(sem, env, before).value;
      NotBound(e, last.outputs, Evaluate(sem, last.kind, Gather(e, last.inputs)).value, s);
    }
    hide Evaluate;
  }

  lemma RestNames(node: Node<Name>, total: nat, i: nat, j: nat)
    requires node.kind.Gru? && Fault(node).None? && OriginalOnly(node) && UsesOnly(Usable(total), node) && 0 < total
    requires 1 <= i < 31 && j < |Emitted(node, 0, i).outputs|
    ensures RenameOne(Spelling, Emitted(node, 0, i).outputs[j]) != Some(Spelled(0, X))
  {
    hide Spelled, Emitted, Free;
    EmittedUses(node, 0, total, i);
    var out := Emitted(node, 0, i).outputs[j];
    EmittedRank(node, i, j);
    SpellingApart(total);
    assert Usable(total)(Made(0, X)) && Spelling(Made(0, X)) == Spelled(0, X);
  }

  lemma EmittedRank(node: Node<Name>, i: nat, j: nat)
    requires node.kind.Gru? && Fault(node).None? && OriginalOnly(node) && 1 <= i < 31 && j < |Emitted(node, 0, i).outputs|
    ensures Emitted(node, 0, i).outputs[j] != Some(Made(0, X))
  {
    hide Fault;
  }

  function Others(node: Node<string>): seq<Node<string>>
    requires Expandable(Rename(Lift, node)) && node.kind.Gru?
  {
    RenameAll(Spelling, Expansion(Rename(Lift, node), 0)[1..])
  }

  lemma FirstTakes(node: Node<string>)
    requires Expandable(Rename(Lift, node)) && node.kind.Gru?
    ensures |node.inputs| == 6 && Rename(Spelling, Emitted(Rename(Lift, node), 0, 0)) == TakeInput(node, 0)
  {
    hide Spelled;
    var first := Rename(Spelling, Emitted(Rename(Lift, node), 0, 0));
    assert |node.inputs| == |Rename(Lift, node).inputs| == 6;
    assert first.inputs == TakeInput(node, 0).inputs;
    assert first.outputs == TakeInput(node, 0).outputs;
  }

  lemma OneExpansion(node: Node<Name>)
    requires Expandable(node) && node.kind.Gru?
    ensures AllExpandable([node]) && ExpandAll([node]) == Expansion(node, 0) && GruCount([node]) == 1
  {
    hide Expansion, Fault;
    assert [node][..0] == [];
  }

  lemma RenameFirst<N, M>(f: N -> M, nodes: seq<Node<N>>)
    requires nodes != []
    ensures RenameAll(f, nodes) == [Rename(f, nodes[0])] + RenameAll(f, nodes[1..])
  {
    hide Rename;
  }

  lemma ExpandedText(node: Node<string>)
    requires Expandable(Rename(Lift, node)) && node.kind.Gru?
    ensures AllExpandable(RenameAll(Lift, [node])) && GruCount(RenameAll(Lift, [node])) == 1 && |node.inputs| == 6
    ensures ExpandText([node]) == [TakeInput(node, 0)] + Others(node)
  {
    hide Spelled, Fault, Emitted, TakeInput, ExpandAll, GruCount, AllExpandable;
    assert Rename(Lift, node).kind.Gru? && Fault(Rename(Lift, node)).None?;
    assert RenameAll(Lift, [node]) == [Rename(Lift, node)];
    OneExpansion(Rename(Lift, node));
    FirstTakes(node);
    RenameFirst(Spelling, Expansion(Rename(Lift, node), 0));
  }

  lemma OthersAvoid(node: Node<string>, total: nat)
    requires Expandable(Rename(Lift, node)) && node.kind.Gru? && NodeFree(node, total) && 0 < total
    ensures forall i | 0 <= i < |Others(node)| :: Some(Spelled(0, X)) !in Others(node)[i].outputs
  {
    hide Spelled, Emitted, Free, Fault;
    var lifted := Rename(Lift, node);
    forall i, j | 0 <= i < |Others(node)| && 0 <= j < |Others(node)[i].outputs|
      ensures Others(node)[i].outputs[j] != Some(Spelled(0, X))
    {
      RestNames(lifted, total, i + 1, j);
    }
  }

  lemma RunFirst(sem: Semantics, env: Env<string>, node: Node<string>)
    ensures Run(sem, env, [node]) == ApplyNode(sem, env, node)
  {
    hide ApplyNode;
    assert [node][..0] == [] && Run(sem, env, []) == Some(env);
  }

  /** Taking the input overwrites whatever the name held before. */
  lemma TakesInput(sem: Semantics, env: Env<string>, node: Node<string>)
    requires |node.inputs| > 0 && node.inputs[0].Some? && node.inputs[0].value in env && env[node.inputs[0].value].Cube?
    requires |env[node.inputs[0].value].ms| == 1 && Spelled(0, Axes0) in env && env[Spelled(0, Axes0)] == Axes([0])
    ensures Run(sem, env, [TakeInput(node, 0)]) == Some(env[Spelled(0, X) := Mat(env[node.inputs[0].value].ms[0])])
  {
    hide Spelled;
    var take := TakeInput(node, 0);
    RunFirst(sem, env, take);
    assert Known(env, take.inputs);
    assert Gather(env, take.inputs) == [Some(env[node.inputs[0].value]), Some(Axes([0]))];
    assert Evaluate(sem, Squeeze, Gather(env, take.inputs)) == Some([Mat(env[node.inputs[0].value].ms[0])]);
    var v := Mat(env[node.inputs[0].value].ms[0]);
    assert take.outputs[..0] == [] && Bind(env, take.outputs[..0], [v]) == env;
    assert Bind(env, take.outputs, [v]) == env[Spelled(0, X) := v];
  }

  lemma AxesSpelled(env: Env<string>)
    ensures Spelled(0, Axes0) in env + TextConstants(1) && (env + TextConstants(1))[Spelled(0, Axes0)] == Axes([0])
    ensures forall s | Free(s, 1) :: (s in env + TextConstants(1) <==> s in env) && (s in env ==> (env + TextConstants(1))[s] == env[s])
  {
    hide Spelled;
    SpelledOnce(0, Made(0, Split3));
    SpelledOnce(0, Made(0, Split6));
    SpelledOnce(0, Made(0, One));
    assert Spelled(0, Split3) == Spelling(Made(0, Split3)) && Spelled(0, Split6) == Spelling(Made(0, Split6));
    assert Spelled(0, One) == Spelling(Made(0, One));
    assert TextConstants(1) == TextConstants(0) + TextConstant(0) == TextConstant(0);
  }

  ghost predicate Except(t: string, s: string) { s != t }

  function Same(s: string): string { s }

  lemma SameButFor(sem: Semantics, env: Env<string>, t: string, node: Node<string>)
    requires t in env && Some(t) !in node.inputs && Some(t) !in node.outputs && ApplyNode(sem, env - {t}, node).Some?
    ensures ApplyNode(sem, env, node).Some? && t in ApplyNode(sem, env, node).value && ApplyNode(sem, env, node).value[t] == env[t]
  {
    var used := s => Except(t, s);
    assert Injective(Same, used) && Carries(Same, used, env - {t}, env);
    assert UsesOnly(used, node) && Rename(Same, node) == node by {
      forall i | 0 <= i < |node.inputs| ensures node.inputs[i] != Some(t) && RenameOne(Same, node.inputs[i]) == node.inputs[i] {
        assert node.inputs[i] in node.inputs;
      }
      forall i | 0 <= i < |node.outputs| ensures node.outputs[i] != Some(t) && RenameOne(Same, node.outputs[i]) == node.outputs[i] {
        assert node.outputs[i] in node.outputs;
      }
      assert RenameEach(Same, node.inputs) == node.inputs && RenameEach(Same, node.outputs) == node.outputs;
    }
    hide Evaluate, Gather, Bind;
    NodeCarried(Same, used, sem, env - {t}, env, node);
    NotBound(env, node.outputs, Evaluate(sem, node.kind, Gather(env, node.inputs)).value, t);
  }

  lemma FreeNode(node: Node<string>, total: nat)
    requires NodeFree(node, total) && total > 0
    ensures Some(Spelled(0, X)) !in node.inputs && Some(Spelled(0, X)) !in node.outputs
    ensures |node.inputs| > 0 && node.inputs[0].Some? ==> Free(node.inputs[0].value, total)
  {}

  /** From two environments that differ in the overwritten name only, the expansion
      goes the same way. */
  lemma RunsAlike(sem: Semantics, a: Env<string>, b: Env<string>, node: Node<string>, v: Value)
    requires Expandable(Rename(Lift, node)) && node.kind.Gru? && NodeFree(node, 1)
    requires Run(sem, a, [TakeInput(node, 0)]) == Some(a[Spelled(0, X) := v])
    requires Run(sem, b, [TakeInput(node, 0)]) == Some(b[Spelled(0, X) := v]) && a[Spelled(0, X) := v] == b[Spelled(0, X) := v]
    requires AllExpandable(RenameAll(Lift, [node])) && Run(sem, a, ExpandText([node])).Some?
    ensures Run(sem, b, ExpandText([node])).Some? && Spelled(0, X) in Run(sem, b, ExpandText([node])).value
    ensures Run(sem, b, ExpandText([node])).value[Spelled(0, X)] == v
  {
    hide Spelled, ExpandText, Fault, Free, TakeInput, Others, Run;
    ExpandedText(node);
    RunAppend(sem, a, [TakeInput(node, 0)], Others(node));
    RunAppend(sem, b, [TakeInput(node, 0)], Others(node));
    OthersAvoid(node, 1);
    NotDefined(sem, b[Spelled(0, X) := v], Others(node), Spelled(0, X));
  }

  /** Freshness matters here too. Where the environment already carries the name under
      which the first expansion keeps its input, the operator leaves that value alone and
      the expansion, which runs all the same, replaces it. */
  lemma SpelledNameChanges(sem: Semantics, env: Env<string>, node: Node<string>)
    requires node.kind.Gru? && Spelled(0, X) in env
    requires var clean := env - {Spelled(0, X)};
      && AllFree(clean, [node], 1) && Accepted(sem, clean, [node]) && Faithful(sem, clean, [node]) && ApplyNode(sem, clean, node).Some?
    requires node.inputs != [] && node.inputs[0].Some? && node.inputs[0].value in env
    requires env[node.inputs[0].value].Cube? && |env[node.inputs[0].value].ms| == 1
    ensures var t, a := Spelled(0, X), ApplyNode(sem, env, node);
      a.Some? && t in a.value && a.value[t] == env[t]
    ensures AllExpandable(RenameAll(Lift, [node]))
    ensures var t, b := Spelled(0, X), Run(sem, env + TextConstants(1), ExpandText([node]));
      b.Some? && t in b.value && b.value[t] == Mat(env[node.inputs[0].value].ms[0])
  {
    hide Spelled, ExpandText, Run, Fault, Convertible, AllExact, Evaluate, TextConstants, TakeInput, ApplyNode, Free, Rename;
    var t, clean, x := Spelled(0, X), env - {Spelled(0, X)}, node.inputs[0].value;
    assert NodeFree([node][0], 1);
    FreeNode(node, 1);
    SameButFor(sem, env, t, node);
    assert RenameAll(Lift, [node])[0] == Rename(Lift, node);
    AcceptedNode(sem, clean, node);
    ExpandedText(node);
    RunFirst(sem, clean, node);
    TextPreserves(sem, clean, [node], 1);
    AxesSpelled(env);
    AxesSpelled(clean);
    assert x in clean && clean[x] == env[x];
    TakesInput(sem, env + TextConstants(1), node);
    TakesInput(sem, clean + TextConstants(1), node);
    var v := Mat(env[x].ms[0]);
    assert (env + TextConstants(1))[t := v] == (clean + TextConstants(1))[t := v];
    RunsAlike(sem, clean + TextConstants(1), env + TextConstants(1), node, v);
  }

  lemma AcceptedNode(sem: Semantics, env: Env<string>, node: Node<string>)
    requires Accepted(sem, env, [node])
    ensures Expandable(Rename(Lift, node))
  {
    hide Fault;
    assert RenameAll(Lift, [node])[0] == Rename(Lift, node);
    ConvertibleExpands(sem, LiftEnv(env), RenameAll(Lift, [node]));
  }
}
