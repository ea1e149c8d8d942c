/** One interaction step, described by what happens to the wires: every wire that
    ended at the active pair is followed through it to where it now ends. */
module Interaction {
  import opened Nets

  /** A well-formed net without a port wired to itself. */
  ghost predicate Sound(n: Net) {
    n.WellFormed() && forall p :: n.IsPort(p) ==> n.Target(p) != p
  }

  /** Two live agents that face each other, the smaller symbol first. */
  ghost predicate Pair(n: Net, a: AgentId, b: AgentId) {
    && a in n.agents && b in n.agents && a != b
    && n.Target(AgentPort(a, 0)) == AgentPort(b, 0) && n.Target(AgentPort(b, 0)) == AgentPort(a, 0)
    && Rank(n.agents[a]) <= Rank(n.agents[b])
  }

  function Rank(s: Symbol): nat {
    match s case Con => 0 case Dup => 1 case Era => 2
  }

  /** Both agents are constructors or both are duplicators. */
  predicate Anni(n: Net, a: AgentId, b: AgentId)
    requires a in n.agents && b in n.agents
  {
    n.agents[a] == n.agents[b] && !n.agents[a].Era?
  }

  /** `u` is an auxiliary port of the pair. */
  predicate Aux(n: Net, a: AgentId, b: AgentId, u: PortRef) {
    n.IsPort(u) && (u.id == a || u.id == b) && u.port != 0
  }

  /** In an annihilation, the port that `u` is joined with: crossed for
      constructors, parallel for duplicators. */
  function Across(n: Net, a: AgentId, b: AgentId, u: PortRef): PortRef
    requires a in n.agents && Aux(n, a, b, u)
  {
    AgentPort(if u.id == a then b else a, if n.agents[a].Con? then 3 - u.port else u.port)
  }

  /** The two auxiliary ports of `x` are wired to each other. */
  predicate Loop(n: Net, x: AgentId) {
    && n.IsPort(AgentPort(x, 1))
    && n.Target(AgentPort(x, 1)) == AgentPort(x, 2) && n.Target(AgentPort(x, 2)) == AgentPort(x, 1)
  }

  // ----------------------------------------------------------------- the agents created

  /** The symbols of the agents a step creates. */
  function Born(n: Net, a: AgentId, b: AgentId): seq<Symbol>
    requires Pair(n, a, b)
  {
    if Anni(n, a, b) || n.agents[a].Era? then []
    else if n.agents[b].Era? then (if Loop(n, a) then [] else [Era, Era])
    else if Loop(n, a) && Loop(n, b) then []
    else if Loop(n, a) then [Con, Con]
    else if Loop(n, b) then [Dup, Dup]
    else [Dup, Dup, Con, Con]
  }

  /** The auxiliary port whose wire the `k`-th new agent takes over. */
  function Source(n: Net, a: AgentId, b: AgentId, k: nat): PortRef
    requires Pair(n, a, b) && k < |Born(n, a, b)|
  {
    if n.agents[b].Era? || Loop(n, b) then AgentPort(a, k + 1)
    else if Loop(n, a) then AgentPort(b, k + 1)
    else if k < 2 then AgentPort(a, k + 1) else AgentPort(b, k - 1)
  }

  /** The new agent that takes over the wire of `u`. */
  function Heir(n: Net, a: AgentId, b: AgentId, u: PortRef): nat
    requires Pair(n, a, b) && Aux(n, a, b, u)
  {
    if u.id == a || n.agents[b].Era? || Loop(n, a) then u.port - 1 else u.port + 1
  }

  /** The wires among the new agents: the pair (agent, port) opposite to (k, j). */
  function Inner(n: Net, a: AgentId, b: AgentId, k: nat, j: nat): (nat, nat)
    requires Pair(n, a, b) && k < |Born(n, a, b)| && 1 <= j <= 2
  {
    if Loop(n, a) || Loop(n, b) then (k, 3 - j)
    else if k < 2 then (j + 1, k + 1) else (j - 1, k - 1)
  }

  // ------------------------------------------------------------- following a wire through

  /** Where a wire that arrives at `r` ends. Through an annihilating pair it passes
      once, or twice when the other agent is looped. */
  function End(n: Net, a: AgentId, b: AgentId, r: PortRef): PortRef
    requires a in n.agents && b in n.agents
  {
    if Aux(n, a, b, r) && Anni(n, a, b) then
      var s := n.Target(Across(n, a, b, r));
      if Aux(n, a, b, s) then n.Target(Across(n, a, b, s)) else s
    else r
  }

  /** The name of that end in the new net, where `F` are the new agents. */
  function Place(n: Net, a: AgentId, b: AgentId, F: seq<AgentId>, s: PortRef): PortRef
    requires Pair(n, a, b)
  {
    if Aux(n, a, b, s) && !Anni(n, a, b) && Heir(n, a, b, s) < |F|
    then AgentPort(F[Heir(n, a, b, s)], 0) else s
  }

  function Follow(n: Net, a: AgentId, b: AgentId, F: seq<AgentId>, r: PortRef): PortRef
    requires Pair(n, a, b)
  {
    Place(n, a, b, F, End(n, a, b, r))
  }

  /** The new agents `F` are pairwise distinct and not in use after the removal. */
  ghost predicate Allocated(n: Net, a: AgentId, b: AgentId, F: seq<AgentId>)
    requires Pair(n, a, b)
  {
    && |F| == |Born(n, a, b)|
    && (forall i, j :: 0 <= i < j < |F| ==> F[i] != F[j])
    && (forall i :: 0 <= i < |F| ==> F[i] !in n.agents || F[i] == a || F[i] == b)
  }

  predicate Survives(n: Net, a: AgentId, b: AgentId, x: AgentId) {
    x in n.agents && x != a && x != b
  }

  /** `m` is `n` after the interaction of `a` and `b`. */
  ghost predicate Reduced(n: Net, a: AgentId, b: AgentId, F: seq<AgentId>, m: Net)
    requires Pair(n, a, b)
  {
    && Allocated(n, a, b, F)
    && (forall x :: x in m.agents <==> Survives(n, a, b, x) || x in F)
    && (forall x :: Survives(n, a, b, x) ==> m.agents[x] == n.agents[x])
    && (forall k :: 0 <= k < |F| ==> F[k] in m.agents && m.agents[F[k]] == Born(n, a, b)[k])
    && (forall p :: n.IsPort(p) && Survives(n, a, b, p.id) ==>
          m.Target(p) == Follow(n, a, b, F, n.Target(p)))
    && (forall k {:trigger F[k]} :: 0 <= k < |F| ==>
          m.Target(AgentPort(F[k], 0)) == Follow(n, a, b, F, n.Target(Source(n, a, b, k))))
    && (forall k, j {:trigger AgentPort(F[k], j)} :: 0 <= k < |F| && 1 <= j < TotalPorts(Born(n, a, b)[k]) ==>
          m.Target(AgentPort(F[k], j)) == AgentPort(F[Inner(n, a, b, k, j).0], Inner(n, a, b, k, j).1))
    && (forall x :: x in m.agents ==> x < m.arena)
  }

  /** The auxiliary ports of the pair are not wired to each other in the way the
      code cannot handle: an annihilation may not join exactly one port with the
      port it is not annihilated with, a commutation may not join any. */
  ghost predicate Clean(n: Net, a: AgentId, b: AgentId)
    requires Pair(n, a, b)
  {
    if Anni(n, a, b) then
      var i := if n.agents[a].Con? then 1 else 2;
      n.Target(AgentPort(a, 1)) == AgentPort(b, i) <==> n.Target(AgentPort(a, 2)) == AgentPort(b, 3 - i)
    else if n.agents[b].Era? then true
    else forall i, j {:trigger AgentPort(a, i), AgentPort(b, j)} ::
      1 <= i <= 2 && 1 <= j <= 2 ==> n.Target(AgentPort(a, i)) != AgentPort(b, j)
  }

  /** A wire that enters a clean annihilating pair from outside leaves it again. */
  lemma EndLeaves(n: Net, a: AgentId, b: AgentId, p: PortRef)
    requires Sound(n) && Pair(n, a, b) && Clean(n, a, b) && Anni(n, a, b)
    requires n.IsPort(p) && Survives(n, a, b, p.id)
    ensures !Aux(n, a, b, End(n, a, b, n.Target(p)))
    ensures End(n, a, b, n.Target(p)) != AgentPort(a, 0) && End(n, a, b, n.Target(p)) != AgentPort(b, 0)
  {
    var u := n.Target(p);
    if Aux(n, a, b, u) {
      assert n.Target(u) == p;
      var v := Across(n, a, b, u);
      var s := n.Target(v);
      assert n.IsPort(v);
      if Aux(n, a, b, s) {
        assert n.Target(s) == v;
        var w := Across(n, a, b, s);
        assert n.IsPort(w) && w != u && w != v;
      }
    }
  }

  predicate Outside(a: AgentId, b: AgentId, r: PortRef) {
    r.AgentPort? ==> r.id != a && r.id != b
  }

  /** A wire from outside meets an auxiliary port with an heir. */
  lemma HeirOfSource(n: Net, a: AgentId, b: AgentId, u: PortRef)
    requires Sound(n) && Pair(n, a, b) && !Anni(n, a, b)
    requires Aux(n, a, b, u) && Outside(a, b, n.Target(u))
    ensures Heir(n, a, b, u) < |Born(n, a, b)| && Source(n, a, b, Heir(n, a, b, u)) == u
  {}

  /** In a clean pair the ports that are taken over are wired to the outside. */
  lemma SourceOutside(n: Net, a: AgentId, b: AgentId, k: nat)
    requires Sound(n) && Pair(n, a, b) && Clean(n, a, b) && k < |Born(n, a, b)|
    ensures var u := Source(n, a, b, k);
            Aux(n, a, b, u) && Outside(a, b, n.Target(u)) && Heir(n, a, b, u) == k
  {
    var u := Source(n, a, b, k);
    assert n.IsPort(u);
    var t := n.Target(u);
    if t.AgentPort? && (t.id == a || t.id == b) {
      assert n.Target(t) == u;
      assert t.port != 0;
      assert t.id == u.id ==> t.port == 3 - u.port;
    }
  }

  /** Wires stay symmetric: the wire of a surviving port. */
  lemma SurvivorWire(n: Net, a: AgentId, b: AgentId, F: seq<AgentId>, m: Net, p: PortRef)
    requires Sound(n) && Pair(n, a, b) && Clean(n, a, b) && Reduced(n, a, b, F, m)
    requires n.IsPort(p) && Survives(n, a, b, p.id)
    ensures var t := m.Target(p); t.AgentPort? ==> m.IsPort(t) && m.Target(t) == p && t != p
  {
    var u := n.Target(p);
    if Aux(n, a, b, u) {
      if Anni(n, a, b) {
        ThroughAnni(n, a, b, p);
        EndLeaves(n, a, b, p);
      } else {
        HeirOfSource(n, a, b, u);
        assert n.Target(u) == p;
        assert F[Heir(n, a, b, u)] in F;
      }
    }
  }

  /** Followed backwards, the wire through an annihilating pair returns. */
  lemma ThroughAnni(n: Net, a: AgentId, b: AgentId, p: PortRef)
    requires Sound(n) && Pair(n, a, b) && Clean(n, a, b) && Anni(n, a, b)
    requires n.IsPort(p) && Survives(n, a, b, p.id)
    ensures var s := End(n, a, b, n.Target(p));
            s.AgentPort? ==> n.IsPort(s) && Survives(n, a, b, s.id) && End(n, a, b, n.Target(s)) == p && s != p
  {
    EndLeaves(n, a, b, p);
    var u := n.Target(p);
    if Aux(n, a, b, u) {
      assert n.Target(u) == p;
      var v := Across(n, a, b, u);
      assert n.IsPort(v) && Across(n, a, b, v) == u;
      var s := n.Target(v);
      if Aux(n, a, b, s) {
        assert n.Target(s) == v;
        var w := Across(n, a, b, s);
        assert n.IsPort(w) && Across(n, a, b, w) == s;
        if n.Target(w).AgentPort? { assert n.Target(n.Target(w)) == w; }
      } else if s.AgentPort? {
        assert n.Target(s) == v;
      }
    }
  }

  /** Wires stay symmetric: the principal port of a new agent. */
  lemma HeirWire(n: Net, a: AgentId, b: AgentId, F: seq<AgentId>, m: Net, k: nat)
    requires Sound(n) && Pair(n, a, b) && Clean(n, a, b) && Reduced(n, a, b, F, m) && k < |F|
    ensures m.Target(AgentPort(F[k], 0)) == n.Target(Source(n, a, b, k))
    ensures var t := m.Target(AgentPort(F[k], 0));
            t.AgentPort? ==> m.IsPort(t) && m.Target(t) == AgentPort(F[k], 0) && Survives(n, a, b, t.id)
  {
    SourceOutside(n, a, b, k);
    var u := Source(n, a, b, k);
    var t := n.Target(u);
    if t.AgentPort? { assert n.Target(t) == u; }
  }

  /** Wires stay symmetric: the auxiliary ports of a new agent. */
  lemma InnerWire(n: Net, a: AgentId, b: AgentId, F: seq<AgentId>, m: Net, k: nat, j: nat)
    requires Sound(n) && Pair(n, a, b) && Reduced(n, a, b, F, m)
    requires k < |F| && 1 <= j < TotalPorts(Born(n, a, b)[k])
    ensures var t := m.Target(AgentPort(F[k], j));
            m.IsPort(t) && m.Target(t) == AgentPort(F[k], j) && t != AgentPort(F[k], j)
  {
    var i := Inner(n, a, b, k, j);
    assert Inner(n, a, b, i.0, i.1) == (k, j);
    assert m.Target(AgentPort(F[k], j)) == AgentPort(F[i.0], i.1);
    assert m.Target(AgentPort(F[i.0], i.1)) == AgentPort(F[k], j);
  }

  /** A step of a clean pair keeps the net sound. */
  lemma ReducedSound(n: Net, a: AgentId, b: AgentId, F: seq<AgentId>, m: Net)
    requires Sound(n) && Pair(n, a, b) && Clean(n, a, b) && Reduced(n, a, b, F, m)
    ensures Sound(m)
  {
    forall p | m.IsPort(p)
      ensures var t := m.Target(p); t != p && (t.AgentPort? ==> m.IsPort(t) && m.Target(t) == p)
    {
      if Survives(n, a, b, p.id) {
        SurvivorWire(n, a, b, F, m, p);
      } else {
        var k :| 0 <= k < |F| && F[k] == p.id;
        if p.port == 0 { HeirWire(n, a, b, F, m, k); } else { InnerWire(n, a, b, F, m, k, p.port); }
        assert p == AgentPort(F[k], p.port);
      }
    }
  }
}
