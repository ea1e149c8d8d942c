/** Reading a lambda term back from a net.

    A constructor entered at its principal port is an abstraction (variable on port 1,
    body on port 2); entered at port 1 it is an application (function on port 0,
    argument on port 2), unless it is an enclosing abstraction, whose variable this is.
    A duplicator entered at an auxiliary port passes on what is at its principal port. */
module Readback {
  import opened Nets
  import opened Lambda

  datatype Tree =
    | Var(x: AgentId)
    | Lam(x: AgentId, body: Tree)
    | App(a: AgentId, fun: Tree, arg: Tree)
    | Copy(d: AgentId, of: Tree)

  predicate Has(n: Net, id: AgentId, s: Symbol) {
    id in n.agents && n.agents[id] == s
  }

  /** Entering the net at port `q`, below the abstractions `scope`, one reads `t`. */
  predicate Reads(n: Net, scope: set<AgentId>, q: PortRef, t: Tree)
    decreases t
  {
    match t
    case Var(x) => q == AgentPort(x, 1) && x in scope && Has(n, x, Con)
    case Lam(x, body) =>
      q == AgentPort(x, 0) && Has(n, x, Con) && Reads(n, scope + {x}, n.Target(AgentPort(x, 2)), body)
    case App(a, f, g) =>
      && q == AgentPort(a, 1) && a !in scope && Has(n, a, Con)
      && Reads(n, scope, n.Target(AgentPort(a, 0)), f) && Reads(n, scope, n.Target(AgentPort(a, 2)), g)
    case Copy(d, t') =>
      (q == AgentPort(d, 1) || q == AgentPort(d, 2)) && Has(n, d, Dup) && Reads(n, scope, n.Target(AgentPort(d, 0)), t')
  }

  /** At most one term is read at a port. */
  lemma {:induction false} ReadsUnique(n: Net, scope: set<AgentId>, q: PortRef, t: Tree, u: Tree)
    requires Reads(n, scope, q, t) && Reads(n, scope, q, u)
    ensures t == u
    decreases t
  {
    match t
    case Var(_) =>
    case Lam(x, b) => ReadsUnique(n, scope + {x}, n.Target(AgentPort(x, 2)), b, u.body);
    case App(a, f, g) =>
      ReadsUnique(n, scope, n.Target(AgentPort(a, 0)), f, u.fun);
      ReadsUnique(n, scope, n.Target(AgentPort(a, 2)), g, u.arg);
    case Copy(d, t') => ReadsUnique(n, scope, n.Target(AgentPort(d, 0)), t', u.of);
  }

  /** `m` keeps the agents of `n` and every wire of its ports. */
  ghost predicate Extends(n: Net, m: Net) {
    && (forall id :: id in n.agents ==> id in m.agents && m.agents[id] == n.agents[id])
    && (forall p :: n.IsPort(p) && n.Target(p) != DISCONNECTED ==> m.Target(p) == n.Target(p))
  }

  /** What a net reads, a larger net reads as well. */
  lemma {:induction false} ReadsExtends(n: Net, m: Net, scope: set<AgentId>, q: PortRef, t: Tree)
    requires Reads(n, scope, q, t) && Extends(n, m)
    ensures Reads(m, scope, q, t)
    decreases t
  {
    match t
    case Var(_) =>
    case Lam(x, b) =>
      ReadsWired(n, scope + {x}, n.Target(AgentPort(x, 2)), b);
      ReadsExtends(n, m, scope + {x}, n.Target(AgentPort(x, 2)), b);
    case App(a, f, g) =>
      ReadsWired(n, scope, n.Target(AgentPort(a, 0)), f);
      ReadsWired(n, scope, n.Target(AgentPort(a, 2)), g);
      ReadsExtends(n, m, scope, n.Target(AgentPort(a, 0)), f);
      ReadsExtends(n, m, scope, n.Target(AgentPort(a, 2)), g);
    case Copy(d, t') =>
      ReadsWired(n, scope, n.Target(AgentPort(d, 0)), t');
      ReadsExtends(n, m, scope, n.Target(AgentPort(d, 0)), t');
  }

  lemma ReadsWired(n: Net, scope: set<AgentId>, q: PortRef, t: Tree)
    requires Reads(n, scope, q, t)
    ensures q.AgentPort?
  {}

  // ------------------------------------------------------------------ as a lambda term

  /** How many binders lie between a variable and its abstraction. */
  function Depth(env: seq<AgentId>, x: AgentId): nat {
    if env == [] || env[0] == x then 0 else 1 + Depth(env[1..], x)
  }

  /** The term of a tree, with the enclosing abstractions innermost first. */
  function TermOf(t: Tree, env: seq<AgentId>): Term {
    match t
    case Var(x) => V(Depth(env, x))
    case Lam(x, b) => L(TermOf(b, [x] + env))
    case App(_, f, g) => A(TermOf(f, env), TermOf(g, env))
    case Copy(_, t') => TermOf(t', env)
  }

  /** Entering at `q`, the net reads as the closed term `e`. */
  ghost predicate Denotes(n: Net, q: PortRef, e: Term) {
    exists t :: Reads(n, {}, q, t) && TermOf(t, []) == e
  }

  /** The term a port denotes is determined. */
  lemma DenotesUnique(n: Net, q: PortRef, e: Term, e': Term)
    requires Denotes(n, q, e) && Denotes(n, q, e')
    ensures e == e'
  {
    var t :| Reads(n, {}, q, t) && TermOf(t, []) == e;
    var t' :| Reads(n, {}, q, t') && TermOf(t', []) == e';
    ReadsUnique(n, {}, q, t, t');
  }

  lemma DenotesExtends(n: Net, m: Net, q: PortRef, e: Term)
    requires Denotes(n, q, e) && Extends(n, m)
    ensures Denotes(m, q, e)
  {
    var t :| Reads(n, {}, q, t) && TermOf(t, []) == e;
    ReadsExtends(n, m, {}, q, t);
  }
}
