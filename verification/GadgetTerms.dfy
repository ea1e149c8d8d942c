/** The combinator fragments read back as the combinators they are named after. */
module GadgetTerms {
  import opened Nets
  import opened Building
  import opened Gadgets
  import opened Readback
  import Lambda

  function Combinator(op: Op): Lambda.Term {
    match op case Add => Lambda.ADD case Mul => Lambda.MUL case Exp => Lambda.EXP
  }

  function AddTree(b: AgentId): Tree {
    Lam(b, Lam(b + 1, Lam(b + 2, Lam(b + 3,
      App(b + 7, App(b + 4, Var(b), Copy(b + 8, Var(b + 2))),
                 App(b + 6, App(b + 5, Var(b + 1), Copy(b + 8, Var(b + 2))), Var(b + 3)))))))
  }

  function MulTree(b: AgentId): Tree {
    Lam(b, Lam(b + 1, Lam(b + 2, App(b + 4, Var(b), App(b + 3, Var(b + 1), Var(b + 2))))))
  }

  function ExpTree(b: AgentId): Tree {
    Lam(b, Lam(b + 1, App(b + 2, Var(b + 1), Var(b))))
  }

  function TreeOf(op: Op, b: AgentId): Tree {
    match op case Add => AddTree(b) case Mul => MulTree(b) case Exp => ExpTree(b)
  }

  // -------------------------------------------------------- reading agent by agent

  /** The other end of the wire at a fragment port. */
  function Other(op: Op, e: End): End {
    var w := WireAt(op, At(op, e));
    if w.0 == e then w.1 else w.0
  }

  lemma EndTarget(n: Net, op: Op, m: PortRef, o: PortRef, r: Net, e: End)
    requires Installed(n, op, m, o, r) && Fits(op, e) && e != ResultEnd(op)
    ensures r.Target(Place(e, n.nextId, m, o)) == Place(Other(op, e), n.nextId, m, o)
  {
    hide Added, Growing, WireAt, At, WireCount, Size;
    EndKnown(op, e);
    var i := At(op, e);
    var w := JointAt(op, i, n.nextId, m, o);
    assert Linked(r, w.0, w.1);
  }

  lemma FragmentAgent(n: Net, op: Op, m: PortRef, o: PortRef, r: Net, k: nat)
    requires Installed(n, op, m, o, r) && k < Size(op)
    ensures Has(r, n.nextId + k, SymbolAt(op, k))
  {
    hide Growing, JointAt;
    assert Syms(op)[k] == SymbolAt(op, k);
  }

  /** The abstractions `b`, `b + 1`, ... are in scope. */
  function Scope(b: AgentId, j: nat): (s: set<AgentId>)
    ensures forall id: AgentId :: id in s <==> b <= id < b + j
  {
    if j == 0 then {} else Scope(b, j - 1) + {b + j - 1}
  }

  /** What is read at a port of the fragment when `j` of its abstractions are open. */
  predicate ReadsAt(n: Net, op: Op, m: PortRef, o: PortRef, r: Net, j: nat, e: End, t: Tree) {
    Reads(r, Scope(n.nextId, j), Place(e, n.nextId, m, o), t)
  }

  lemma ReadVar(n: Net, op: Op, m: PortRef, o: PortRef, r: Net, j: nat, k: nat)
    requires Installed(n, op, m, o, r) && k < j && k < Size(op) && SymbolAt(op, k) == Con
    ensures ReadsAt(n, op, m, o, r, j, Local(k, 1), Var(n.nextId + k))
  {
    hide Installed, Size, SymbolAt;
    FragmentAgent(n, op, m, o, r, k);
  }

  lemma ReadApp(n: Net, op: Op, m: PortRef, o: PortRef, r: Net, j: nat, k: nat, f: Tree, g: Tree)
    requires Installed(n, op, m, o, r) && j <= k < Size(op) && SymbolAt(op, k) == Con
    requires ReadsAt(n, op, m, o, r, j, Other(op, Local(k, 0)), f) && ReadsAt(n, op, m, o, r, j, Other(op, Local(k, 2)), g)
    ensures ReadsAt(n, op, m, o, r, j, Local(k, 1), App(n.nextId + k, f, g))
  {
    hide Installed, Size, SymbolAt, Other;
    FragmentAgent(n, op, m, o, r, k);
    EndTarget(n, op, m, o, r, Local(k, 0));
    EndTarget(n, op, m, o, r, Local(k, 2));
  }

  lemma ReadLam(n: Net, op: Op, m: PortRef, o: PortRef, r: Net, j: nat, body: Tree)
    requires Installed(n, op, m, o, r) && j < Size(op) && SymbolAt(op, j) == Con
    requires ReadsAt(n, op, m, o, r, j + 1, Other(op, Local(j, 2)), body)
    ensures ReadsAt(n, op, m, o, r, j, Local(j, 0), Lam(n.nextId + j, body))
  {
    hide Installed, Size, SymbolAt, Other;
    FragmentAgent(n, op, m, o, r, j);
    EndTarget(n, op, m, o, r, Local(j, 2));
    assert Scope(n.nextId, j + 1) == Scope(n.nextId, j) + {n.nextId + j};
  }

  lemma ReadCopy(n: Net, op: Op, m: PortRef, o: PortRef, r: Net, j: nat, k: nat, port: nat, t: Tree)
    requires Installed(n, op, m, o, r) && k < Size(op) && SymbolAt(op, k) == Dup && (port == 1 || port == 2)
    requires ReadsAt(n, op, m, o, r, j, Other(op, Local(k, 0)), t)
    ensures ReadsAt(n, op, m, o, r, j, Local(k, port), Copy(n.nextId + k, t))
  {
    hide Installed, Size, SymbolAt, Other;
    FragmentAgent(n, op, m, o, r, k);
    EndTarget(n, op, m, o, r, Local(k, 0));
  }

  lemma AddReads(n: Net, m: PortRef, o: PortRef, r: Net)
    requires Installed(n, Add, m, o, r)
    ensures ReadsAt(n, Add, m, o, r, 0, Local(0, 0), AddTree(n.nextId))
  {
    hide Installed, ReadsAt;
    var b := n.nextId;
    ReadVar(n, Add, m, o, r, 4, 0);
    ReadVar(n, Add, m, o, r, 4, 1);
    ReadVar(n, Add, m, o, r, 4, 2);
    ReadVar(n, Add, m, o, r, 4, 3);
    var f := Copy(b + 8, Var(b + 2));
    ReadCopy(n, Add, m, o, r, 4, 8, 1, Var(b + 2));
    ReadCopy(n, Add, m, o, r, 4, 8, 2, Var(b + 2));
    var mf, nf := App(b + 4, Var(b), f), App(b + 5, Var(b + 1), f);
    ReadApp(n, Add, m, o, r, 4, 4, Var(b), f);
    ReadApp(n, Add, m, o, r, 4, 5, Var(b + 1), f);
    ReadApp(n, Add, m, o, r, 4, 6, nf, Var(b + 3));
    ReadApp(n, Add, m, o, r, 4, 7, mf, App(b + 6, nf, Var(b + 3)));
    var body := App(b + 7, mf, App(b + 6, nf, Var(b + 3)));
    ReadLam(n, Add, m, o, r, 3, body);
    ReadLam(n, Add, m, o, r, 2, Lam(b + 3, body));
    ReadLam(n, Add, m, o, r, 1, Lam(b + 2, Lam(b + 3, body)));
    ReadLam(n, Add, m, o, r, 0, Lam(b + 1, Lam(b + 2, Lam(b + 3, body))));
  }

  lemma MulReads(n: Net, m: PortRef, o: PortRef, r: Net)
    requires Installed(n, Mul, m, o, r)
    ensures ReadsAt(n, Mul, m, o, r, 0, Local(0, 0), MulTree(n.nextId))
  {
    hide Installed, ReadsAt;
    var b := n.nextId;
    ReadVar(n, Mul, m, o, r, 3, 0);
    ReadVar(n, Mul, m, o, r, 3, 1);
    ReadVar(n, Mul, m, o, r, 3, 2);
    var nf := App(b + 3, Var(b + 1), Var(b + 2));
    ReadApp(n, Mul, m, o, r, 3, 3, Var(b + 1), Var(b + 2));
    ReadApp(n, Mul, m, o, r, 3, 4, Var(b), nf);
    ReadLam(n, Mul, m, o, r, 2, App(b + 4, Var(b), nf));
    ReadLam(n, Mul, m, o, r, 1, Lam(b + 2, App(b + 4, Var(b), nf)));
    ReadLam(n, Mul, m, o, r, 0, Lam(b + 1, Lam(b + 2, App(b + 4, Var(b), nf))));
  }

  lemma ExpReads(n: Net, m: PortRef, o: PortRef, r: Net)
    requires Installed(n, Exp, m, o, r)
    ensures ReadsAt(n, Exp, m, o, r, 0, Local(0, 0), ExpTree(n.nextId))
  {
    hide Installed, ReadsAt;
    var b := n.nextId;
    ReadVar(n, Exp, m, o, r, 2, 0);
    ReadVar(n, Exp, m, o, r, 2, 1);
    ReadApp(n, Exp, m, o, r, 2, 2, Var(b + 1), Var(b));
    ReadLam(n, Exp, m, o, r, 1, App(b + 2, Var(b + 1), Var(b)));
    ReadLam(n, Exp, m, o, r, 0, Lam(b + 1, App(b + 2, Var(b + 1), Var(b))));
  }

  // ----------------------------------------------------------- the whole application

  lemma TreeTerm(op: Op, b: AgentId)
    ensures TermOf(TreeOf(op, b), []) == Combinator(op)
  {
    match op
    case Add => AddTerm(b);
    case Mul => MulTerm(b);
    case Exp => ExpTerm(b);
  }

  lemma DepthOf(env: seq<AgentId>, i: nat)
    requires i < |env| && forall j, k :: 0 <= j < k < |env| ==> env[j] != env[k]
    ensures Depth(env, env[i]) == i
  {
    if i > 0 { DepthOf(env[1..], i - 1); }
  }

  lemma AddTerm(b: AgentId)
    ensures TermOf(AddTree(b), []) == Lambda.ADD
  {
    var env := [b + 3, b + 2, b + 1, b];
    assert [b + 3] + ([b + 2] + ([b + 1] + ([b] + []))) == env;
    DepthOf(env, 0);
    DepthOf(env, 1);
    DepthOf(env, 2);
    DepthOf(env, 3);
    hide Depth;
    var f := Copy(b + 8, Var(b + 2));
    assert TermOf(f, env) == Lambda.V(1) by { assert TermOf(Var(b + 2), env) == Lambda.V(1); }
    assert TermOf(App(b + 4, Var(b), f), env) == Lambda.A(Lambda.V(3), Lambda.V(1));
    assert TermOf(App(b + 5, Var(b + 1), f), env) == Lambda.A(Lambda.V(2), Lambda.V(1));
    var nfx := App(b + 6, App(b + 5, Var(b + 1), f), Var(b + 3));
    assert TermOf(nfx, env) == Lambda.A(Lambda.A(Lambda.V(2), Lambda.V(1)), Lambda.V(0));
    var body := App(b + 7, App(b + 4, Var(b), f), nfx);
    assert TermOf(body, env) == Lambda.ADD.body.body.body.body;
    assert TermOf(Lam(b + 3, body), [b + 2] + ([b + 1] + ([b] + []))) == Lambda.ADD.body.body.body;
    assert TermOf(Lam(b + 2, Lam(b + 3, body)), [b + 1] + ([b] + [])) == Lambda.ADD.body.body;
  }

  lemma MulTerm(b: AgentId)
    ensures TermOf(MulTree(b), []) == Lambda.MUL
  {
    var env := [b + 2, b + 1, b];
    assert [b + 2] + ([b + 1] + ([b] + [])) == env;
    DepthOf(env, 0);
    DepthOf(env, 1);
    DepthOf(env, 2);
    hide Depth;
    var body := App(b + 4, Var(b), App(b + 3, Var(b + 1), Var(b + 2)));
    assert TermOf(App(b + 3, Var(b + 1), Var(b + 2)), env) == Lambda.A(Lambda.V(1), Lambda.V(0));
    assert TermOf(body, env) == Lambda.MUL.body.body.body;
    assert TermOf(Lam(b + 2, body), [b + 1] + ([b] + [])) == Lambda.MUL.body.body;
  }

  lemma ExpTerm(b: AgentId)
    ensures TermOf(ExpTree(b), []) == Lambda.EXP
  {
    var env := [b + 1, b];
    assert [b + 1] + ([b] + []) == env;
    DepthOf(env, 0);
    DepthOf(env, 1);
    hide Depth;
    assert TermOf(App(b + 2, Var(b + 1), Var(b)), env) == Lambda.EXP.body.body;
  }

  lemma InstallExtends(n: Net, op: Op, m: PortRef, o: PortRef, r: Net)
    requires Growing(n) && Operands(n, m, o) && Installed(n, op, m, o, r)
    ensures Extends(n, r)
  {
    hide JointAt, WireCount, Size;
  }

  lemma FragmentReads(n: Net, op: Op, m: PortRef, o: PortRef, r: Net)
    requires Installed(n, op, m, o, r)
    ensures ReadsAt(n, op, m, o, r, 0, Local(0, 0), TreeOf(op, n.nextId))
  {
    hide Installed, ReadsAt;
    match op
    case Add => AddReads(n, m, o, r);
    case Mul => MulReads(n, m, o, r);
    case Exp => ExpReads(n, m, o, r);
  }

  lemma OuterReads(n: Net, op: Op, m: PortRef, o: PortRef, r: Net, t: Tree, u: Tree)
    requires Installed(n, op, m, o, r) && Reads(r, {}, m, t) && Reads(r, {}, o, u)
    ensures var b, k := n.nextId, Size(op);
      Reads(r, {}, P(b + k - 1, 1), App(b + k - 1, App(b + k - 2, TreeOf(op, b), t), u))
  {
    hide Installed, Reads, TreeOf;
    var b, k := n.nextId, Size(op);
    assert Scope(b, 0) == {};
    FragmentReads(n, op, m, o, r);
    assert ReadsAt(n, op, m, o, r, 0, First, t) && ReadsAt(n, op, m, o, r, 0, Second, u);
    ReadApp(n, op, m, o, r, 0, k - 2, TreeOf(op, b), t);
    ReadApp(n, op, m, o, r, 0, k - 1, App(b + k - 2, TreeOf(op, b), t), u);
  }

  /** A fragment put on two operands denotes its combinator applied to theirs. */
  lemma InstallDenotes(n: Net, op: Op, m: PortRef, o: PortRef, e: Lambda.Term, f: Lambda.Term)
    requires Growing(n) && Operands(n, m, o) && Denotes(n, m, e) && Denotes(n, o, f)
    ensures Denotes(Install(n, op, m, o), P(n.nextId + Size(op) - 1, 1), Lambda.Binary(Combinator(op), e, f))
  {
    hide Installed, TreeOf, Install;
    var r, b, k := Install(n, op, m, o), n.nextId, Size(op);
    InstallWires(n, op, m, o);
    InstallExtends(n, op, m, o, r);
    var t :| Reads(n, {}, m, t) && TermOf(t, []) == e;
    var u :| Reads(n, {}, o, u) && TermOf(u, []) == f;
    ReadsExtends(n, r, {}, m, t);
    ReadsExtends(n, r, {}, o, u);
    OuterReads(n, op, m, o, r, t, u);
    TreeTerm(op, b);
    var all := App(b + k - 1, App(b + k - 2, TreeOf(op, b), t), u);
    assert TermOf(App(b + k - 2, TreeOf(op, b), t), []) == Lambda.A(Combinator(op), e);
    assert TermOf(all, []) == Lambda.Binary(Combinator(op), e, f);
  }
}
