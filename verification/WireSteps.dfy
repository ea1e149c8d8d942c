/** Single wires of small nets before and after a step. */
module WireSteps {
  import opened Nets
  import opened Interaction

  /** The two ports are wired to each other. */
  predicate Joined(n: Net, p: PortRef, q: PortRef) {
    n.IsPort(p) && n.IsPort(q) && n.Target(p) == q && n.Target(q) == p
  }

  predicate OnLabel(n: Net, p: PortRef, name: nat) {
    n.IsPort(p) && n.Target(p) == FreePort(name)
  }

  predicate Away(a: AgentId, b: AgentId, p: PortRef) {
    p.AgentPort? && p.id != a && p.id != b
  }

  lemma Survivor(n: Net, a: AgentId, b: AgentId, F: seq<AgentId>, m: Net, p: PortRef)
    requires Pair(n, a, b) && Reduced(n, a, b, F, m) && n.IsPort(p) && Away(a, b, p)
    ensures m.IsPort(p) && m.Target(p) == Follow(n, a, b, F, n.Target(p))
  {}

  /** Wires that do not meet the pair stay. */
  lemma Stays(n: Net, a: AgentId, b: AgentId, F: seq<AgentId>, m: Net, p: PortRef, q: PortRef)
    requires Pair(n, a, b) && Reduced(n, a, b, F, m) && Joined(n, p, q) && Away(a, b, p) && Away(a, b, q)
    ensures Joined(m, p, q)
  {
    Survivor(n, a, b, F, m, p);
    Survivor(n, a, b, F, m, q);
    hide Reduced;
  }

  lemma StaysOnLabel(n: Net, a: AgentId, b: AgentId, F: seq<AgentId>, m: Net, p: PortRef, name: nat)
    requires Pair(n, a, b) && Reduced(n, a, b, F, m) && OnLabel(n, p, name) && Away(a, b, p)
    ensures OnLabel(m, p, name)
  {
    Survivor(n, a, b, F, m, p);
    hide Reduced;
  }

  /** `x` and `y` are passed straight through when (a, b) annihilates. */
  predicate Passage(n: Net, a: AgentId, b: AgentId, x: PortRef, y: PortRef) {
    && a in n.agents && b in n.agents && Anni(n, a, b) && Aux(n, a, b, x) && y == Across(n, a, b, x)
  }

  lemma PassageBack(n: Net, a: AgentId, b: AgentId, x: PortRef, y: PortRef)
    requires Passage(n, a, b, x, y) && a != b
    ensures Passage(n, a, b, y, x)
  {}

  lemma ThroughOne(n: Net, a: AgentId, b: AgentId, F: seq<AgentId>, m: Net, p: PortRef, x: PortRef, y: PortRef)
    requires Pair(n, a, b) && Reduced(n, a, b, F, m) && Joined(n, p, x) && Away(a, b, p) && Passage(n, a, b, x, y)
    requires !Aux(n, a, b, n.Target(y))
    ensures m.IsPort(p) && m.Target(p) == n.Target(y)
  {
    Survivor(n, a, b, F, m, p);
    hide Reduced;
  }

  /** Two wires that meet an annihilating pair at opposite ports are joined. */
  lemma Joins(n: Net, a: AgentId, b: AgentId, F: seq<AgentId>, m: Net, p: PortRef, x: PortRef, y: PortRef, q: PortRef)
    requires Pair(n, a, b) && Reduced(n, a, b, F, m) && Passage(n, a, b, x, y)
    requires Joined(n, p, x) && Joined(n, q, y) && Away(a, b, p) && Away(a, b, q)
    ensures Joined(m, p, q)
  {
    PassageBack(n, a, b, x, y);
    ThroughOne(n, a, b, F, m, p, x, y);
    ThroughOne(n, a, b, F, m, q, y, x);
    hide Reduced;
  }

  /** So are two wires that meet a pair of which one agent has a loop. */
  lemma JoinsLoop(n: Net, a: AgentId, b: AgentId, F: seq<AgentId>, m: Net, l: AgentId, o: AgentId, p: PortRef, q: PortRef)
    requires Pair(n, a, b) && Reduced(n, a, b, F, m) && Anni(n, a, b) && Loop(n, l) && {l, o} == {a, b}
    requires Joined(n, p, AgentPort(o, 1)) && Joined(n, q, AgentPort(o, 2)) && Away(a, b, p) && Away(a, b, q)
    ensures Joined(m, p, q)
  {
    Survivor(n, a, b, F, m, p);
    Survivor(n, a, b, F, m, q);
    hide Reduced;
    assert (l == a && o == b) || (l == b && o == a);
  }

  /** A new agent takes over a wire. */
  lemma TakesOver(n: Net, a: AgentId, b: AgentId, F: seq<AgentId>, m: Net, k: nat, p: PortRef)
    requires Sound(n) && Pair(n, a, b) && Clean(n, a, b) && Reduced(n, a, b, F, m) && k < |F| && k < |Born(n, a, b)|
    requires Joined(n, p, Source(n, a, b, k)) && Away(a, b, p)
    ensures Joined(m, p, AgentPort(F[k], 0))
  {
    HeirWire(n, a, b, F, m, k);
    Survivor(n, a, b, F, m, p);
  }

  lemma TakesOverLabel(n: Net, a: AgentId, b: AgentId, F: seq<AgentId>, m: Net, k: nat, name: nat)
    requires Sound(n) && Pair(n, a, b) && Clean(n, a, b) && Reduced(n, a, b, F, m) && k < |F| && k < |Born(n, a, b)|
    requires OnLabel(n, Source(n, a, b, k), name)
    ensures OnLabel(m, AgentPort(F[k], 0), name)
  {
    HeirWire(n, a, b, F, m, k);
  }

  /** The wires among the new agents. */
  lemma NewWires(n: Net, a: AgentId, b: AgentId, F: seq<AgentId>, m: Net, k: nat, j: nat)
    requires Sound(n) && Pair(n, a, b) && Reduced(n, a, b, F, m) && k < |F| && k < |Born(n, a, b)|
    requires 1 <= j < TotalPorts(Born(n, a, b)[k])
    ensures var i := Inner(n, a, b, k, j); i.0 < |F| && Joined(m, AgentPort(F[k], j), AgentPort(F[i.0], i.1))
  {
    InnerWire(n, a, b, F, m, k, j);
    assert m.Target(AgentPort(F[k], j)) == AgentPort(F[Inner(n, a, b, k, j).0], Inner(n, a, b, k, j).1);
  }

  /** Which agents there are after a step, and what they are. */
  lemma AgentsAfter(n: Net, a: AgentId, b: AgentId, F: seq<AgentId>, m: Net)
    requires Pair(n, a, b) && Reduced(n, a, b, F, m)
    ensures |F| == |Born(n, a, b)|
    ensures forall x :: x in m.agents <==> Survives(n, a, b, x) || x in F
    ensures forall x :: Survives(n, a, b, x) ==> m.agents[x] == n.agents[x]
    ensures forall k :: 0 <= k < |F| ==> F[k] in m.agents && m.agents[F[k]] == Born(n, a, b)[k] && !Survives(n, a, b, F[k])
    ensures forall i, j :: 0 <= i < j < |F| ==> F[i] != F[j]
  {}

  lemma OnlyRemoved(n: Net, a: AgentId, b: AgentId, F: seq<AgentId>, m: Net)
    requires Pair(n, a, b) && Born(n, a, b) == [] && Reduced(n, a, b, F, m)
    ensures m.agents == n.agents - {a, b}
  {
    hide Reduced, Born, Pair;
    AgentsAfter(n, a, b, F, m);
  }
}
