/** The interaction rules as coded: read the auxiliary targets, remove the pair,
    create the new agents and link. */
module Rules {
  import opened Nets
  import opened NetOps
  import opened Interaction

  // -------------------------------------------------------------------- removing the pair

  lemma DisconnectTarget(n: Net, x: PortRef, p: PortRef)
    requires x.AgentPort? && x.id < n.arena && (n.Target(x).AgentPort? ==> n.Target(x).id < n.arena)
    ensures Disconnect(n, x).Target(p) == if p == x || p == n.Target(x) then DISCONNECTED else n.Target(p)
  {}

  predicate At(r: PortRef, id: AgentId) {
    r.AgentPort? && r.id == id
  }

  /** The wire of `p` is one of the first `k` wires of `id`. */
  predicate Cut(n: Net, id: AgentId, k: nat, p: PortRef) {
    (At(p, id) && p.port < k) || (n.IsPort(p) && At(n.Target(p), id) && n.Target(p).port < k)
  }

  lemma CutStep(n: Net, id: AgentId, k: nat, p: PortRef)
    requires n.WellFormed() && id in n.agents && k < TotalPorts(n.agents[id])
    ensures var x := AgentPort(id, k);
      && (Cut(n, id, k + 1, p) <==> Cut(n, id, k, p) || p == x || (p == n.Target(x) && p.AgentPort?))
      && (n.Target(x).AgentPort? ==> n.Target(x).id < n.arena) && id < n.arena
      && (Cut(n, id, k, x) <==> Cut(n, id, k, n.Target(x)))
  {
    var x := AgentPort(id, k);
    assert n.IsPort(x);
    if n.Target(x).AgentPort? { assert n.IsPort(n.Target(x)) && n.Target(n.Target(x)) == x; }
  }

  lemma {:induction false} DisconnectAllTarget(n: Net, id: AgentId, k: nat, p: PortRef)
    requires n.WellFormed() && id in n.agents && k <= TotalPorts(n.agents[id]) && p.AgentPort?
    ensures DisconnectAll(n, id, k).Target(p) == if Cut(n, id, k, p) then DISCONNECTED else n.Target(p)
  {
    if k > 0 {
      hide Disconnect, Cut, Net.WellFormed;
      var m, x := DisconnectAll(n, id, k - 1), AgentPort(id, k - 1);
      DisconnectAllTarget(n, id, k - 1, p);
      DisconnectAllTarget(n, id, k - 1, x);
      CutStep(n, id, k - 1, p);
      DisconnectTarget(m, x, p);
    } else {
      assert !Cut(n, id, 0, p);
    }
  }

  lemma RemoveAgentTarget(n: Net, id: AgentId, p: PortRef)
    requires n.WellFormed() && id in n.agents && n.IsPort(p) && p.id != id
    ensures RemoveAgent(n, id).Target(p) == if At(n.Target(p), id) then DISCONNECTED else n.Target(p)
  {
    DisconnectAllTarget(n, id, TotalPorts(n.agents[id]), p);
  }

  lemma RemoveAgentSound(n: Net, id: AgentId)
    requires Sound(n) && AllocOk(n) && id in n.agents
    ensures var m := RemoveAgent(n, id);
      && m.agents == n.agents - {id} && m.arena == n.arena && m.nextId == n.nextId && m.redexes == n.redexes
      && m.freeList == n.freeList + [id] && m.recycling == n.recycling && m.root == n.root
      && Sound(m) && AllocOk(m)
  {
    var m := RemoveAgent(n, id);
    hide DisconnectAll;
    forall p | m.IsPort(p)
      ensures m.Target(p) != p && (m.Target(p).AgentPort? ==> m.IsPort(m.Target(p)) && m.Target(m.Target(p)) == p)
    {
      RemoveAgentTarget(n, id, p);
      if m.Target(p).AgentPort? {
        assert n.IsPort(n.Target(p)) && n.Target(n.Target(p)) == p;
        RemoveAgentTarget(n, id, n.Target(p));
      }
    }
  }

  function RemovePair(n: Net, a: AgentId, b: AgentId): Net {
    RemoveAgent(RemoveAgent(n, a), b)
  }

  lemma RemovePairFacts(n: Net, a: AgentId, b: AgentId)
    requires Sound(n) && AllocOk(n) && Pair(n, a, b)
    ensures var m := RemovePair(n, a, b);
      && m.agents == n.agents - {a, b} && m.arena == n.arena && m.nextId == n.nextId && m.redexes == n.redexes
      && m.freeList == n.freeList + [a, b] && m.recycling == n.recycling && m.root == n.root
      && Sound(m) && AllocOk(m)
  {
    RemoveAgentSound(n, a);
    RemoveAgentSound(RemoveAgent(n, a), b);
  }

  lemma RemovePairTarget(n: Net, a: AgentId, b: AgentId, p: PortRef)
    requires Sound(n) && AllocOk(n) && Pair(n, a, b) && n.IsPort(p) && Survives(n, a, b, p.id)
    ensures RemovePair(n, a, b).Target(p) == if Outside(a, b, n.Target(p)) then n.Target(p) else DISCONNECTED
  {
    RemoveAgentSound(n, a);
    RemoveAgentTarget(n, a, p);
    RemoveAgentTarget(RemoveAgent(n, a), b, p);
  }

  // --------------------------------------------------------------------------- the rules

  /** Connects unless an end belongs to an agent that is gone. */
  function Link(n: Net, x: PortRef, y: PortRef): (m: Net)
    ensures m == n.(ports := m.ports, redexes := m.redexes)
  {
    if (x.AgentPort? && x.id !in n.agents) || (y.AgentPort? && y.id !in n.agents) then n else Connect(n, x, y)
  }

  function InteractVoid(n: Net, a: AgentId, b: AgentId): Net {
    RemovePair(n, a, b)
  }

  function InteractAnni(n: Net, a: AgentId, b: AgentId): Net
    requires a in n.agents
  {
    var a1, a2 := n.Target(AgentPort(a, 1)), n.Target(AgentPort(a, 2));
    var b1, b2 := n.Target(AgentPort(b, 1)), n.Target(AgentPort(b, 2));
    var m := RemovePair(n, a, b);
    if Loop(n, a) && Loop(n, b) then m
    else if Loop(n, b) then Link(m, a1, a2)
    else if Loop(n, a) then Link(m, b1, b2)
    else if n.agents[a].Con? then Link(Link(m, a1, b2), a2, b1)
    else Link(Link(m, a1, b1), a2, b2)
  }

  function InteractEras(n: Net, a: AgentId, b: AgentId): Net {
    var a1, a2 := n.Target(AgentPort(a, 1)), n.Target(AgentPort(a, 2));
    var m := RemovePair(n, a, b);
    if Loop(n, a) then m
    else
      var (m2, F) := Create(m, [Era, Era]);
      Link(Link(m2, AgentPort(F[0], 0), a1), AgentPort(F[1], 0), a2)
  }

  /** A looped agent is copied onto the two wires of the other one. */
  function CopyLoop(m: Net, s: Symbol, x: PortRef, y: PortRef): Net {
    var (m2, F) := Create(m, [s, s]);
    var m3 := Connect(Connect(m2, AgentPort(F[0], 1), AgentPort(F[0], 2)), AgentPort(F[1], 1), AgentPort(F[1], 2));
    Link(Link(m3, AgentPort(F[0], 0), x), AgentPort(F[1], 0), y)
  }

  /** The crossed wires among the four agents of a commutation. */
  function WireFour(m: Net, F: seq<AgentId>): (m': Net)
    requires |F| == 4
    ensures m' == m.(ports := m'.ports, redexes := m'.redexes)
  {
    var p, q, r, s := F[0], F[1], F[2], F[3];
    Connect(Connect(Connect(Connect(m, AgentPort(p, 1), AgentPort(r, 1)), AgentPort(p, 2), AgentPort(s, 1)),
                    AgentPort(q, 1), AgentPort(r, 2)), AgentPort(q, 2), AgentPort(s, 2))
  }

  function LinkFour(m: Net, F: seq<AgentId>, a1: PortRef, a2: PortRef, b1: PortRef, b2: PortRef): (m': Net)
    requires |F| == 4
    ensures m' == m.(ports := m'.ports, redexes := m'.redexes)
  {
    Link(Link(Link(Link(m, AgentPort(F[0], 0), a1), AgentPort(F[1], 0), a2), AgentPort(F[2], 0), b1), AgentPort(F[3], 0), b2)
  }

  function InteractComm(n: Net, a: AgentId, b: AgentId): Net {
    var a1, a2 := n.Target(AgentPort(a, 1)), n.Target(AgentPort(a, 2));
    var b1, b2 := n.Target(AgentPort(b, 1)), n.Target(AgentPort(b, 2));
    var m := RemovePair(n, a, b);
    if Loop(n, a) && Loop(n, b) then m
    else if Loop(n, a) then CopyLoop(m, Con, b1, b2)
    else if Loop(n, b) then CopyLoop(m, Dup, a1, a2)
    else
      var (m4, F) := Create(m, [Dup, Dup, Con, Con]);
      WireFour(LinkFour(m4, F, a1, a2, b1, b2), F)
  }

  /** Creates agents one after the other; also returns their ids. */
  function Create(n: Net, ss: seq<Symbol>): (r: (Net, seq<AgentId>))
    ensures |r.1| == |ss| && r.0.root == n.root && r.0.redexes == n.redexes
  {
    if ss == [] then (n, [])
    else
      var (m, F) := Create(n, ss[..|ss| - 1]);
      (CreateAgent(m, ss[|ss| - 1]), F + [NextFree(m)])
  }

  /** Dispatch on the symbols of the pair, the smaller one first. */
  function Apply(n: Net, a: AgentId, b: AgentId): Net
    requires a in n.agents && b in n.agents
  {
    if Anni(n, a, b) then InteractAnni(n, a, b)
    else if n.agents[a].Era? then InteractVoid(n, a, b)
    else if n.agents[b].Era? then InteractEras(n, a, b)
    else InteractComm(n, a, b)
  }

  // ------------------------------------------------------------------------ creating agents

  /** What creating agents changes: they are new, live, and nothing else moves. */
  ghost predicate Created(n: Net, ss: seq<Symbol>, m: Net, F: seq<AgentId>) {
    && |F| == |ss| && AllocOk(m) && m.redexes == n.redexes && m.root == n.root && n.arena <= m.arena
    && (forall i, j :: 0 <= i < j < |F| ==> F[i] != F[j])
    && (forall i :: 0 <= i < |F| ==> F[i] !in n.agents && F[i] in m.agents && m.agents[F[i]] == ss[i])
    && (forall x :: x in m.agents <==> x in n.agents || x in F)
    && (forall x :: x in n.agents ==> m.agents[x] == n.agents[x])
    && (forall p: PortRef :: p.AgentPort? && p.id in n.agents ==> m.Target(p) == n.Target(p))
  }

  lemma CreateOne(n: Net, s: Symbol)
    requires AllocOk(n)
    ensures Created(n, [s], CreateAgent(n, s), [NextFree(n)])
  {
    CreateAlloc(n, s);
  }

  lemma CreatedMore(n: Net, ss: seq<Symbol>, m: Net, F: seq<AgentId>, s: Symbol)
    requires AllocOk(n) && Created(n, ss, m, F)
    ensures Created(n, ss + [s], CreateAgent(m, s), F + [NextFree(m)])
  {
    var m', G := CreateAgent(m, s), F + [NextFree(m)];
    CreateOne(m, s);
    hide AllocOk, CreateAgent, NextFree;
    assert forall x :: x in G <==> x in F || x == NextFree(m);
    assert [NextFree(m)][0] == NextFree(m) && NextFree(m) in [NextFree(m)];
    forall i | 0 <= i < |G| ensures G[i] !in n.agents && G[i] in m'.agents && m'.agents[G[i]] == (ss + [s])[i] {
      if i < |F| { assert F[i] in m.agents; }
    }
  }

  lemma {:induction false} CreateFacts(n: Net, ss: seq<Symbol>)
    requires AllocOk(n)
    ensures Created(n, ss, Create(n, ss).0, Create(n, ss).1)
  {
    if ss != [] {
      CreateFacts(n, ss[..|ss| - 1]);
      var (m, F) := Create(n, ss[..|ss| - 1]);
      CreatedMore(n, ss[..|ss| - 1], m, F, ss[|ss| - 1]);
      assert ss[..|ss| - 1] + [ss[|ss| - 1]] == ss;
    }
  }

  // -------------------------------------------------- each rule is the step on the wires

  ghost predicate LiveEnd(n: Net, x: PortRef) {
    x.AgentPort? ==> x.id in n.agents
  }

  lemma LinkTarget(n: Net, x: PortRef, y: PortRef, p: PortRef)
    requires AllocOk(n) && LiveEnd(n, x) && LiveEnd(n, y) && p.AgentPort?
    ensures Link(n, x, y).Target(p) == if p == y then x else if p == x then y else n.Target(p)
  {}

  /** The agents part of a step: the pair is gone, the new agents are there. */
  ghost predicate AgentsReduced(n: Net, a: AgentId, b: AgentId, F: seq<AgentId>, m: Net)
    requires Pair(n, a, b)
  {
    && AllocOk(m) && Allocated(n, a, b, F)
    && (forall x :: x in m.agents <==> Survives(n, a, b, x) || x in F)
    && (forall x :: Survives(n, a, b, x) ==> m.agents[x] == n.agents[x])
    && (forall k :: 0 <= k < |F| ==> F[k] in m.agents && m.agents[F[k]] == Born(n, a, b)[k])
  }

  lemma AgentsStep(n: Net, a: AgentId, b: AgentId, F: seq<AgentId>, m: Net)
    requires Sound(n) && AllocOk(n) && Pair(n, a, b)
    requires Created(RemovePair(n, a, b), Born(n, a, b), m, F)
    ensures AgentsReduced(n, a, b, F, m)
    ensures CutAway(n, a, b, m)
  {
    RemovePairFacts(n, a, b);
    hide RemovePair, Born;
    forall p | n.IsPort(p) && Survives(n, a, b, p.id)
      ensures m.Target(p) == if Outside(a, b, n.Target(p)) then n.Target(p) else DISCONNECTED
    {
      RemovePairTarget(n, a, b, p);
    }
  }

  /** After removal: wires that met the pair are cut, the others are untouched. */
  ghost predicate CutAway(n: Net, a: AgentId, b: AgentId, m: Net) {
    forall p :: n.IsPort(p) && Survives(n, a, b, p.id) ==>
      m.Target(p) == if Outside(a, b, n.Target(p)) then n.Target(p) else DISCONNECTED
  }

  /** The auxiliary wires of the new agents are in place. */
  ghost predicate InnerDone(n: Net, a: AgentId, b: AgentId, F: seq<AgentId>, m: Net)
    requires Pair(n, a, b) && |F| == |Born(n, a, b)|
  {
    forall k, j {:trigger AgentPort(F[k], j)} :: 0 <= k < |F| && 1 <= j < TotalPorts(Born(n, a, b)[k]) ==>
      m.Target(AgentPort(F[k], j)) == AgentPort(F[Inner(n, a, b, k, j).0], Inner(n, a, b, k, j).1)
  }

  /** `p` is an end of the wire that new agent `k` takes over. */
  predicate TakenOver(n: Net, a: AgentId, b: AgentId, F: seq<AgentId>, k: nat, p: PortRef)
    requires Pair(n, a, b) && k < |F| == |Born(n, a, b)|
  {
    p == AgentPort(F[k], 0) || p == n.Target(Source(n, a, b, k))
  }

  /** The first `c` new principal ports are linked to the outside ends they take over. */
  ghost predicate Linked(n: Net, a: AgentId, b: AgentId, F: seq<AgentId>, m: Net, m': Net, c: nat)
    requires Pair(n, a, b) && c <= |F| == |Born(n, a, b)|
  {
    && (forall k {:trigger F[k]} :: 0 <= k < c ==>
          var t := n.Target(Source(n, a, b, k));
          && m'.Target(AgentPort(F[k], 0)) == t
          && (t.AgentPort? ==> m'.Target(t) == AgentPort(F[k], 0)))
    && (forall p: PortRef :: p.AgentPort? && p.id !in F && (forall k :: 0 <= k < c ==> !TakenOver(n, a, b, F, k, p)) ==>
          m'.Target(p) == m.Target(p))
  }

  lemma LinkOneMore(n: Net, a: AgentId, b: AgentId, F: seq<AgentId>, m: Net, m': Net, c: nat)
    requires Sound(n) && Pair(n, a, b) && Clean(n, a, b) && !Anni(n, a, b)
    requires AgentsReduced(n, a, b, F, m') && c < |F| && Linked(n, a, b, F, m, m', c)
    ensures var m'' := Link(m', AgentPort(F[c], 0), n.Target(Source(n, a, b, c)));
            AgentsReduced(n, a, b, F, m'') && Linked(n, a, b, F, m, m'', c + 1)
  {
    var x, t := AgentPort(F[c], 0), n.Target(Source(n, a, b, c));
    var m'' := Link(m', x, t);
    SourceOutside(n, a, b, c);
    assert LiveEnd(m', x) && LiveEnd(m', t);
    hide Link, AllocOk;
    forall k {:trigger F[k]} | 0 <= k < c + 1
      ensures var t := n.Target(Source(n, a, b, k));
        m''.Target(AgentPort(F[k], 0)) == t && (t.AgentPort? ==> m''.Target(t) == AgentPort(F[k], 0))
    {
      LinkApart(n, a, b, F, k, c);
      var t' := n.Target(Source(n, a, b, k));
      LinkTarget(m', x, t, AgentPort(F[k], 0));
      if t'.AgentPort? { LinkTarget(m', x, t, t'); }
    }
    forall p: PortRef | p.AgentPort? && p.id !in F && (forall k :: 0 <= k < c + 1 ==> !TakenOver(n, a, b, F, k, p))
      ensures m''.Target(p) == m.Target(p)
    {
      LinkTarget(m', x, t, p);
      assert !TakenOver(n, a, b, F, c, p);
    }
  }

  /** The ends that two new agents take over are different. */
  lemma LinkApart(n: Net, a: AgentId, b: AgentId, F: seq<AgentId>, k: nat, c: nat)
    requires Sound(n) && Pair(n, a, b) && Clean(n, a, b) && Allocated(n, a, b, F) && k < |F| && c < |F|
    ensures var s, t := n.Target(Source(n, a, b, k)), n.Target(Source(n, a, b, c));
      && (k != c && s.AgentPort? ==> s != t && F[k] != F[c])
      && (s.AgentPort? ==> s != AgentPort(F[c], 0))
  {
    SourceOutside(n, a, b, k);
    SourceOutside(n, a, b, c);
    var s := n.Target(Source(n, a, b, k));
    if s.AgentPort? { assert n.Target(s) == Source(n, a, b, k); }
  }

  lemma LinkedSurvivor(n: Net, a: AgentId, b: AgentId, F: seq<AgentId>, m: Net, m': Net, p: PortRef)
    requires Sound(n) && Pair(n, a, b) && Clean(n, a, b) && !Anni(n, a, b) && Allocated(n, a, b, F)
    requires CutAway(n, a, b, m) && Linked(n, a, b, F, m, m', |F|)
    requires n.IsPort(p) && Survives(n, a, b, p.id)
    ensures m'.Target(p) == Follow(n, a, b, F, n.Target(p))
  {
    var u := n.Target(p);
    if Aux(n, a, b, u) {
      assert n.Target(u) == p;
      HeirOfSource(n, a, b, u);
      assert F[Heir(n, a, b, u)] == F[Heir(n, a, b, u)];
    } else {
      assert Outside(a, b, u);
      forall k | 0 <= k < |F| ensures !TakenOver(n, a, b, F, k, p) {
        SourceOutside(n, a, b, k);
        assert F[k] !in n.agents || F[k] == a || F[k] == b;
      }
    }
  }

  lemma LinkedNew(n: Net, a: AgentId, b: AgentId, F: seq<AgentId>, k: nat)
    requires Sound(n) && Pair(n, a, b) && Clean(n, a, b) && !Anni(n, a, b) && Allocated(n, a, b, F) && k < |F|
    ensures Follow(n, a, b, F, n.Target(Source(n, a, b, k))) == n.Target(Source(n, a, b, k))
  {
    SourceOutside(n, a, b, k);
  }

  lemma LinkedReduced(n: Net, a: AgentId, b: AgentId, F: seq<AgentId>, m: Net, m': Net)
    requires Sound(n) && Pair(n, a, b) && Clean(n, a, b) && !Anni(n, a, b)
    requires AgentsReduced(n, a, b, F, m') && CutAway(n, a, b, m) && Linked(n, a, b, F, m, m', |F|) && InnerDone(n, a, b, F, m')
    ensures Reduced(n, a, b, F, m')
  {
    forall p | n.IsPort(p) && Survives(n, a, b, p.id)
      ensures m'.Target(p) == Follow(n, a, b, F, n.Target(p))
    {
      LinkedSurvivor(n, a, b, F, m, m', p);
    }
    forall k {:trigger F[k]} | 0 <= k < |F|
      ensures m'.Target(AgentPort(F[k], 0)) == Follow(n, a, b, F, n.Target(Source(n, a, b, k)))
    {
      LinkedNew(n, a, b, F, k);
    }
    hide Follow, Clean, Sound, Born, Source, Linked;
  }

  lemma Start(n: Net, a: AgentId, b: AgentId) returns (m: Net, F: seq<AgentId>)
    requires Sound(n) && AllocOk(n) && Pair(n, a, b)
    ensures (m, F) == Create(RemovePair(n, a, b), Born(n, a, b))
    ensures AgentsReduced(n, a, b, F, m) && CutAway(n, a, b, m) && Linked(n, a, b, F, m, m, 0)
  {
    RemovePairFacts(n, a, b);
    CreateFacts(RemovePair(n, a, b), Born(n, a, b));
    var (m', F') := Create(RemovePair(n, a, b), Born(n, a, b));
    m, F := m', F';
    AgentsStep(n, a, b, F, m);
  }

  lemma ErasStep(n: Net, a: AgentId, b: AgentId) returns (F: seq<AgentId>)
    requires Sound(n) && AllocOk(n) && Pair(n, a, b) && !n.agents[a].Era? && n.agents[b].Era?
    ensures Reduced(n, a, b, F, InteractEras(n, a, b)) && AllocOk(InteractEras(n, a, b))
  {
    hide AllocOk, Sound, CutAway, Reduced;
    var m, F' := Start(n, a, b);
    F := F';
    var m' := m;
    if !Loop(n, a) {
      LinkOneMore(n, a, b, F, m, m', 0);
      m' := Link(m', AgentPort(F[0], 0), n.Target(Source(n, a, b, 0)));
      LinkOneMore(n, a, b, F, m, m', 1);
      m' := Link(m', AgentPort(F[1], 0), n.Target(Source(n, a, b, 1)));
    }
    assert m' == InteractEras(n, a, b) by { hide Link, RemovePair, Create; }
    LinkedReduced(n, a, b, F, m, m');
  }

  // ------------------------------------------------------------------------- commutation

  /** Wiring auxiliary ports of new agents leaves everything else alone. */
  lemma ConnectInner(n: Net, a: AgentId, b: AgentId, F: seq<AgentId>, m: Net, m': Net, c: nat, k: nat, i: nat, l: nat, j: nat)
    requires Pair(n, a, b) && Sound(n) && Clean(n, a, b) && AgentsReduced(n, a, b, F, m') && c <= |F| && k < |F| && l < |F|
    requires 1 <= i && 1 <= j && Linked(n, a, b, F, m, m', c)
    ensures var m'' := Connect(m', AgentPort(F[k], i), AgentPort(F[l], j));
      AgentsReduced(n, a, b, F, m'') && Linked(n, a, b, F, m, m'', c)
  {
    var x, y := AgentPort(F[k], i), AgentPort(F[l], j);
    var m'' := Connect(m', x, y);
    hide Connect, AllocOk;
    assert F[k] in F && F[l] in F;
    forall p: PortRef | p.AgentPort? && (p.id !in F || p.port == 0) ensures m''.Target(p) == m'.Target(p) {
      ConnectTarget(m', x, y, p);
    }
    forall e {:trigger F[e]} | 0 <= e < c
      ensures var t := n.Target(Source(n, a, b, e));
        m''.Target(AgentPort(F[e], 0)) == t && (t.AgentPort? ==> m''.Target(t) == AgentPort(F[e], 0))
    {
      SourceOutside(n, a, b, e);
      OutsideIsOld(n, a, b, F, n.Target(Source(n, a, b, e)), Source(n, a, b, e));
    }
  }

  lemma OutsideIsOld(n: Net, a: AgentId, b: AgentId, F: seq<AgentId>, t: PortRef, s: PortRef)
    requires Sound(n) && Pair(n, a, b) && Allocated(n, a, b, F) && n.IsPort(s) && n.Target(s) == t && Outside(a, b, t)
    ensures t.AgentPort? ==> t.id !in F
  {}

  /** Linking a principal port leaves the auxiliary wires of the new agents alone. */
  lemma LinkKeepsInner(n: Net, a: AgentId, b: AgentId, F: seq<AgentId>, m: Net, c: nat)
    requires Sound(n) && Pair(n, a, b) && Clean(n, a, b) && AgentsReduced(n, a, b, F, m) && c < |F| && InnerDone(n, a, b, F, m)
    ensures InnerDone(n, a, b, F, Link(m, AgentPort(F[c], 0), n.Target(Source(n, a, b, c))))
  {
    var x, t := AgentPort(F[c], 0), n.Target(Source(n, a, b, c));
    SourceOutside(n, a, b, c);
    OutsideIsOld(n, a, b, F, t, Source(n, a, b, c));
    assert LiveEnd(m, x) && LiveEnd(m, t);
    hide Link, AllocOk, Sound, Clean, Inner;
    forall k, j | 0 <= k < |F| && 1 <= j < TotalPorts(Born(n, a, b)[k])
      ensures Link(m, x, t).Target(AgentPort(F[k], j)) == m.Target(AgentPort(F[k], j))
    {
      assert F[k] in F;
      LinkTarget(m, x, t, AgentPort(F[k], j));
    }
  }

  lemma LoopedPair(m: Net, p: AgentId, q: AgentId)
    requires p != q && p < m.arena && q < m.arena
    ensures var m' := Connect(Connect(m, AgentPort(p, 1), AgentPort(p, 2)), AgentPort(q, 1), AgentPort(q, 2));
      && m'.Target(AgentPort(p, 1)) == AgentPort(p, 2) && m'.Target(AgentPort(p, 2)) == AgentPort(p, 1)
      && m'.Target(AgentPort(q, 1)) == AgentPort(q, 2) && m'.Target(AgentPort(q, 2)) == AgentPort(q, 1)
  {}

  function Looped(m: Net, F: seq<AgentId>): Net
    requires |F| == 2
  {
    Connect(Connect(m, AgentPort(F[0], 1), AgentPort(F[0], 2)), AgentPort(F[1], 1), AgentPort(F[1], 2))
  }

  lemma LoopedDone(n: Net, a: AgentId, b: AgentId, F: seq<AgentId>, m: Net)
    requires Sound(n) && Pair(n, a, b) && Clean(n, a, b) && AgentsReduced(n, a, b, F, m) && Linked(n, a, b, F, m, m, 0)
    requires |F| == 2 && (Loop(n, a) || Loop(n, b))
    ensures AgentsReduced(n, a, b, F, Looped(m, F)) && Linked(n, a, b, F, m, Looped(m, F), 0)
    ensures InnerDone(n, a, b, F, Looped(m, F))
  {
    hide Connect, AgentsReduced, Linked, Sound, Clean, AllocOk, Inner, InnerDone, Born, Loop;
    var m1 := Connect(m, AgentPort(F[0], 1), AgentPort(F[0], 2));
    LoopedInner(n, a, b, F, m);
    ConnectInner(n, a, b, F, m, m, 0, 0, 1, 0, 2);
    ConnectInner(n, a, b, F, m, m1, 0, 1, 1, 1, 2);
  }

  lemma LoopedInner(n: Net, a: AgentId, b: AgentId, F: seq<AgentId>, m: Net)
    requires Pair(n, a, b) && AgentsReduced(n, a, b, F, m) && |F| == 2 && (Loop(n, a) || Loop(n, b))
    ensures |F| == |Born(n, a, b)| && InnerDone(n, a, b, F, Looped(m, F))
  {
    assert F[0] != F[1] && F[0] < m.arena && F[1] < m.arena;
    LoopedPair(m, F[0], F[1]);
    assert forall j :: 1 <= j < 3 ==> Inner(n, a, b, 0, j) == (0, 3 - j) && Inner(n, a, b, 1, j) == (1, 3 - j);
    hide Looped, AgentsReduced, Inner;
  }

  lemma LinkTwoDone(n: Net, a: AgentId, b: AgentId, F: seq<AgentId>, m: Net, m': Net)
    requires Sound(n) && Pair(n, a, b) && Clean(n, a, b) && !Anni(n, a, b) && CutAway(n, a, b, m)
    requires AgentsReduced(n, a, b, F, m') && Linked(n, a, b, F, m, m', 0) && InnerDone(n, a, b, F, m') && |F| == 2
    ensures var m'' := Link(Link(m', AgentPort(F[0], 0), n.Target(Source(n, a, b, 0))), AgentPort(F[1], 0), n.Target(Source(n, a, b, 1)));
            Reduced(n, a, b, F, m'') && AllocOk(m'')
  {
    assert |Born(n, a, b)| == 2;
    hide Link, AgentsReduced, Linked, InnerDone, Sound, Clean, AllocOk, CutAway, Source, Born, Anni, Reduced;
    var m1 := Link(m', AgentPort(F[0], 0), n.Target(Source(n, a, b, 0)));
    var m2 := Link(m1, AgentPort(F[1], 0), n.Target(Source(n, a, b, 1)));
    LinkOneMore(n, a, b, F, m, m', 0);
    LinkKeepsInner(n, a, b, F, m', 0);
    LinkOneMore(n, a, b, F, m, m1, 1);
    LinkKeepsInner(n, a, b, F, m1, 1);
    LinkedReduced(n, a, b, F, m, m2);
    AllocOf(n, a, b, F, m2);
  }

  /** The commutation of a looped agent copies the loop. */
  lemma CopyLoopStep(n: Net, a: AgentId, b: AgentId, s: Symbol) returns (F: seq<AgentId>)
    requires Sound(n) && AllocOk(n) && Pair(n, a, b) && Clean(n, a, b) && !Anni(n, a, b) && !n.agents[b].Era?
    requires Born(n, a, b) == [s, s] && (Loop(n, a) || Loop(n, b))
    ensures var m := CopyLoop(RemovePair(n, a, b), s, n.Target(Source(n, a, b, 0)), n.Target(Source(n, a, b, 1)));
            Reduced(n, a, b, F, m) && AllocOk(m)
  {
    var m, F' := Start(n, a, b);
    F := F';
    hide Link, Connect, AgentsReduced, Linked, InnerDone, Sound, Clean, AllocOk, CutAway, Source, Anni, Loop, Reduced, Create, RemovePair;
    LoopedDone(n, a, b, F, m);
    LinkTwoDone(n, a, b, F, m, Looped(m, F));
  }

  lemma AllocOf(n: Net, a: AgentId, b: AgentId, F: seq<AgentId>, m: Net)
    requires Pair(n, a, b) && AgentsReduced(n, a, b, F, m)
    ensures AllocOk(m)
  {}

  lemma WireFourInner(n: Net, a: AgentId, b: AgentId, F: seq<AgentId>, m: Net)
    requires Pair(n, a, b) && Born(n, a, b) == [Dup, Dup, Con, Con] && AgentsReduced(n, a, b, F, m)
    requires !Loop(n, a) && !Loop(n, b)
    ensures InnerDone(n, a, b, F, WireFour(m, F))
  {
    var m' := WireFour(m, F);
    assert F[0] < m.arena && F[1] < m.arena && F[2] < m.arena && F[3] < m.arena;
    assert F[0] != F[1] && F[0] != F[2] && F[0] != F[3] && F[1] != F[2] && F[1] != F[3] && F[2] != F[3];
    WireFourTargets(m, F);
    hide WireFour, AllocOk, AgentsReduced;
    forall k, j {:trigger AgentPort(F[k], j)} | 0 <= k < |F| && 1 <= j < TotalPorts(Born(n, a, b)[k])
      ensures m'.Target(AgentPort(F[k], j)) == AgentPort(F[Inner(n, a, b, k, j).0], Inner(n, a, b, k, j).1)
    {
      assert k == 0 || k == 1 || k == 2 || k == 3;
      assert j == 1 || j == 2;
    }
  }

  lemma WireFourTargets(m: Net, F: seq<AgentId>)
    requires |F| == 4 && F[0] < m.arena && F[1] < m.arena && F[2] < m.arena && F[3] < m.arena
    requires F[0] != F[1] && F[0] != F[2] && F[0] != F[3] && F[1] != F[2] && F[1] != F[3] && F[2] != F[3]
    ensures var m' := WireFour(m, F);
      && m'.Target(AgentPort(F[0], 1)) == AgentPort(F[2], 1) && m'.Target(AgentPort(F[2], 1)) == AgentPort(F[0], 1)
      && m'.Target(AgentPort(F[0], 2)) == AgentPort(F[3], 1) && m'.Target(AgentPort(F[3], 1)) == AgentPort(F[0], 2)
      && m'.Target(AgentPort(F[1], 1)) == AgentPort(F[2], 2) && m'.Target(AgentPort(F[2], 2)) == AgentPort(F[1], 1)
      && m'.Target(AgentPort(F[1], 2)) == AgentPort(F[3], 2) && m'.Target(AgentPort(F[3], 2)) == AgentPort(F[1], 2)
  {
    var p, q, r, s := F[0], F[1], F[2], F[3];
    var m1 := Connect(m, AgentPort(p, 1), AgentPort(r, 1));
    var m2 := Connect(m1, AgentPort(p, 2), AgentPort(s, 1));
    var m3 := Connect(m2, AgentPort(q, 1), AgentPort(r, 2));
    hide Connect, Net.Target;
    ConnectBoth(m, AgentPort(p, 1), AgentPort(r, 1));
    ConnectBoth(m1, AgentPort(p, 2), AgentPort(s, 1));
    ConnectBoth(m2, AgentPort(q, 1), AgentPort(r, 2));
    ConnectBoth(m3, AgentPort(q, 2), AgentPort(s, 2));
    forall x | x == AgentPort(p, 1) || x == AgentPort(r, 1) ensures m2.Target(x) == m1.Target(x) {
      ConnectKeeps(m1, AgentPort(p, 2), AgentPort(s, 1), x);
    }
    forall x | x in {AgentPort(p, 1), AgentPort(r, 1), AgentPort(p, 2), AgentPort(s, 1)} ensures m3.Target(x) == m2.Target(x) {
      ConnectKeeps(m2, AgentPort(q, 1), AgentPort(r, 2), x);
    }
    forall x | x in {AgentPort(p, 1), AgentPort(r, 1), AgentPort(p, 2), AgentPort(s, 1), AgentPort(q, 1), AgentPort(r, 2)}
      ensures WireFour(m, F).Target(x) == m3.Target(x)
    {
      ConnectKeeps(m3, AgentPort(q, 2), AgentPort(s, 2), x);
    }
  }

  lemma ConnectBoth(m: Net, x: PortRef, y: PortRef)
    requires x.AgentPort? && y.AgentPort? && x.id < m.arena && y.id < m.arena
    ensures Connect(m, x, y).Target(x) == y && Connect(m, x, y).Target(y) == x && Connect(m, x, y).arena == m.arena
  {}

  lemma ConnectKeeps(m: Net, x: PortRef, y: PortRef, p: PortRef)
    requires p != x && p != y
    ensures Connect(m, x, y).Target(p) == m.Target(p)
  {}

  lemma WireFourKeeps(n: Net, a: AgentId, b: AgentId, F: seq<AgentId>, m: Net, m': Net)
    requires Sound(n) && Pair(n, a, b) && Clean(n, a, b) && AgentsReduced(n, a, b, F, m') && |F| == 4
    requires Linked(n, a, b, F, m, m', 4)
    ensures AgentsReduced(n, a, b, F, WireFour(m', F)) && Linked(n, a, b, F, m, WireFour(m', F), 4)
  {
    hide Connect, AgentsReduced, Linked, Sound, Clean;
    ConnectInner(n, a, b, F, m, m', 4, 0, 1, 2, 1);
    var m1 := Connect(m', AgentPort(F[0], 1), AgentPort(F[2], 1));
    ConnectInner(n, a, b, F, m, m1, 4, 0, 2, 3, 1);
    var m2 := Connect(m1, AgentPort(F[0], 2), AgentPort(F[3], 1));
    ConnectInner(n, a, b, F, m, m2, 4, 1, 1, 2, 2);
    var m3 := Connect(m2, AgentPort(F[1], 1), AgentPort(F[2], 2));
    ConnectInner(n, a, b, F, m, m3, 4, 1, 2, 3, 2);
  }

  lemma LinkFourDone(n: Net, a: AgentId, b: AgentId, F: seq<AgentId>, m: Net)
    requires Sound(n) && Pair(n, a, b) && Clean(n, a, b) && !Anni(n, a, b)
    requires AgentsReduced(n, a, b, F, m) && |F| == 4 && Linked(n, a, b, F, m, m, 0)
    ensures var m' := LinkFour(m, F, n.Target(Source(n, a, b, 0)), n.Target(Source(n, a, b, 1)),
                               n.Target(Source(n, a, b, 2)), n.Target(Source(n, a, b, 3)));
            AgentsReduced(n, a, b, F, m') && Linked(n, a, b, F, m, m', 4)
  {
    assert |Born(n, a, b)| == 4;
    hide Link, AgentsReduced, Linked, Sound, Clean, Source, Born, Anni, Pair;
    var t0, t1 := n.Target(Source(n, a, b, 0)), n.Target(Source(n, a, b, 1));
    LinkTwoMore(n, a, b, F, m, m, 0);
    LinkTwoMore(n, a, b, F, m, Link(Link(m, AgentPort(F[0], 0), t0), AgentPort(F[1], 0), t1), 2);
  }

  lemma LinkTwoMore(n: Net, a: AgentId, b: AgentId, F: seq<AgentId>, m: Net, m': Net, c: nat)
    requires Sound(n) && Pair(n, a, b) && Clean(n, a, b) && !Anni(n, a, b)
    requires AgentsReduced(n, a, b, F, m') && c + 1 < |F| == |Born(n, a, b)| && Linked(n, a, b, F, m, m', c)
    ensures var m'' := Link(Link(m', AgentPort(F[c], 0), n.Target(Source(n, a, b, c))), AgentPort(F[c + 1], 0), n.Target(Source(n, a, b, c + 1)));
            AgentsReduced(n, a, b, F, m'') && Linked(n, a, b, F, m, m'', c + 2)
  {
    hide Link, AgentsReduced, Linked, Sound, Clean, Source, Born, Anni, Pair;
    LinkOneMore(n, a, b, F, m, m', c);
    LinkOneMore(n, a, b, F, m, Link(m', AgentPort(F[c], 0), n.Target(Source(n, a, b, c))), c + 1);
  }

  lemma CommFourStep(n: Net, a: AgentId, b: AgentId) returns (F: seq<AgentId>)
    requires Sound(n) && AllocOk(n) && Pair(n, a, b) && Clean(n, a, b) && n.agents[a].Con? && n.agents[b].Dup?
    requires !Loop(n, a) && !Loop(n, b)
    ensures Reduced(n, a, b, F, InteractComm(n, a, b)) && AllocOk(InteractComm(n, a, b))
  {
    var m, F' := Start(n, a, b);
    F := F';
    var m' := LinkFour(m, F, n.Target(Source(n, a, b, 0)), n.Target(Source(n, a, b, 1)),
                       n.Target(Source(n, a, b, 2)), n.Target(Source(n, a, b, 3)));
    assert WireFour(m', F) == InteractComm(n, a, b) by {
      hide WireFour, LinkFour, Create, RemovePair, AgentsReduced, Linked;
    }
    assert Born(n, a, b) == [Dup, Dup, Con, Con];
    hide LinkFour, WireFour, AgentsReduced, Linked, InnerDone, Sound, Clean, InteractComm, Create, RemovePair, CutAway;
    LinkFourDone(n, a, b, F, m);
    WireFourKeeps(n, a, b, F, m, m');
    WireFourInner(n, a, b, F, m');
    LinkedReduced(n, a, b, F, m, WireFour(m', F));
    AllocOf(n, a, b, F, WireFour(m', F));
  }

  // ------------------------------------------------------------ annihilation and erasure

  predicate Gone(n: Net, x: PortRef) {
    x.AgentPort? && x.id !in n.agents
  }

  lemma LinkAny(n: Net, x: PortRef, y: PortRef, p: PortRef)
    requires AllocOk(n) && p.AgentPort?
    ensures Link(n, x, y).Target(p) ==
      if Gone(n, x) || Gone(n, y) then n.Target(p) else if p == y then x else if p == x then y else n.Target(p)
    ensures Link(n, x, y).agents == n.agents && AllocOk(Link(n, x, y))
  {}

  /** The auxiliary targets of an annihilating pair, as seen from outside. */
  lemma AuxTargets(n: Net, a: AgentId, b: AgentId, u: PortRef)
    requires Sound(n) && Pair(n, a, b) && Aux(n, a, b, u)
    ensures var t := n.Target(u); t.AgentPort? ==> n.IsPort(t) && n.Target(t) == u && t != u
    ensures var t := n.Target(u); !Outside(a, b, t) <==> Aux(n, a, b, t)
  {}

  lemma RemovedAgents(n: Net, a: AgentId, b: AgentId)
    requires Sound(n) && AllocOk(n) && Pair(n, a, b)
    ensures var m := RemovePair(n, a, b);
      CutAway(n, a, b, m) && AllocOk(m) && (forall x :: x in m.agents <==> Survives(n, a, b, x))
      && (forall x :: Survives(n, a, b, x) ==> m.agents[x] == n.agents[x])
  {
    RemovePairFacts(n, a, b);
    forall p | n.IsPort(p) && Survives(n, a, b, p.id)
      ensures RemovePair(n, a, b).Target(p) == if Outside(a, b, n.Target(p)) then n.Target(p) else DISCONNECTED
    {
      RemovePairTarget(n, a, b, p);
    }
  }

  /** Two links, each joining the targets of two ports that annihilate: a wire from
      outside that met `u` now leads to the target of the port across. */
  lemma TwoJoins(n: Net, a: AgentId, b: AgentId, m: Net, u: PortRef, v: PortRef, w: PortRef, z: PortRef, p: PortRef)
    requires Sound(n) && Pair(n, a, b) && AllocOk(m) && (forall x :: x in m.agents <==> Survives(n, a, b, x))
    requires Aux(n, a, b, u) && Aux(n, a, b, v) && Aux(n, a, b, w) && Aux(n, a, b, z)
    requires u != v && u != w && u != z && v != w && v != z && w != z
    requires n.IsPort(p) && Survives(n, a, b, p.id)
    ensures var m' := Link(Link(m, n.Target(u), n.Target(v)), n.Target(w), n.Target(z));
      && (n.Target(p) == u && Outside(a, b, n.Target(v)) ==> m'.Target(p) == n.Target(v))
      && (n.Target(p) == v && Outside(a, b, n.Target(u)) ==> m'.Target(p) == n.Target(u))
      && (n.Target(p) == w && Outside(a, b, n.Target(z)) ==> m'.Target(p) == n.Target(z))
      && (n.Target(p) == z && Outside(a, b, n.Target(w)) ==> m'.Target(p) == n.Target(w))
      && (n.Target(p) != u && n.Target(p) != v && n.Target(p) != w && n.Target(p) != z ==> m'.Target(p) == m.Target(p))
  {
    LinkAny(m, n.Target(u), n.Target(v), p);
    LinkAny(Link(m, n.Target(u), n.Target(v)), n.Target(w), n.Target(z), p);
    hide Link, AllocOk;
    forall x | x == u || x == v || x == w || x == z
      ensures n.Target(x).AgentPort? ==> n.IsPort(n.Target(x)) && n.Target(n.Target(x)) == x
    {
      AuxTargets(n, a, b, x);
    }
    hide Net.WellFormed, Aux;
  }

  /** The two links of an annihilation without loops. */
  lemma AnniWire(n: Net, a: AgentId, b: AgentId, m: Net, p: PortRef)
    requires Sound(n) && Pair(n, a, b) && Clean(n, a, b) && Anni(n, a, b) && AllocOk(m) && CutAway(n, a, b, m)
    requires forall x :: x in m.agents <==> Survives(n, a, b, x)
    requires n.IsPort(p) && Survives(n, a, b, p.id) && !Loop(n, a) && !Loop(n, b)
    ensures var v1, v2 := Across(n, a, b, AgentPort(a, 1)), Across(n, a, b, AgentPort(a, 2));
            Link(Link(m, n.Target(AgentPort(a, 1)), n.Target(v1)), n.Target(AgentPort(a, 2)), n.Target(v2)).Target(p)
            == End(n, a, b, n.Target(p))
  {
    var v1, v2 := Across(n, a, b, AgentPort(a, 1)), Across(n, a, b, AgentPort(a, 2));
    TwoJoins(n, a, b, m, AgentPort(a, 1), v1, AgentPort(a, 2), v2, p);
    hide Link, AllocOk;
    var u := n.Target(p);
    if Aux(n, a, b, u) {
      AcrossOutside(n, a, b, p);
    } else {
      assert Outside(a, b, u);
    }
  }

  lemma AcrossOutside(n: Net, a: AgentId, b: AgentId, p: PortRef)
    requires Sound(n) && Pair(n, a, b) && Clean(n, a, b) && Anni(n, a, b) && !Loop(n, a) && !Loop(n, b)
    requires n.IsPort(p) && Survives(n, a, b, p.id) && Aux(n, a, b, n.Target(p))
    ensures Outside(a, b, n.Target(Across(n, a, b, n.Target(p))))
  {
    var u := n.Target(p);
    assert n.Target(u) == p;
    var v := Across(n, a, b, u);
    assert n.IsPort(v);
    AuxTargets(n, a, b, v);
    assert n.Target(n.Target(v)) == v || n.Target(v).FreePort?;
  }

  lemma LoopWire(n: Net, a: AgentId, b: AgentId, m: Net, l: AgentId, o: AgentId, p: PortRef)
    requires Sound(n) && Pair(n, a, b) && Anni(n, a, b) && AllocOk(m) && CutAway(n, a, b, m)
    requires forall x :: x in m.agents <==> Survives(n, a, b, x)
    requires (l == a && o == b) || (l == b && o == a)
    requires n.IsPort(p) && Survives(n, a, b, p.id) && Loop(n, l) && !Loop(n, o)
    ensures Link(m, n.Target(AgentPort(o, 1)), n.Target(AgentPort(o, 2))).Target(p) == End(n, a, b, n.Target(p))
  {
    var o1, o2 := n.Target(AgentPort(o, 1)), n.Target(AgentPort(o, 2));
    AuxTargets(n, a, b, AgentPort(o, 1));
    AuxTargets(n, a, b, AgentPort(o, 2));
    AuxTargets(n, a, b, AgentPort(l, 1));
    LinkAny(m, o1, o2, p);
    var u := n.Target(p);
    hide Link, AllocOk;
    if Aux(n, a, b, u) { assert n.Target(u) == p && u.id == o; }
  }

  lemma AnniStep(n: Net, a: AgentId, b: AgentId)
    requires Sound(n) && AllocOk(n) && Pair(n, a, b) && Clean(n, a, b) && Anni(n, a, b)
    ensures Reduced(n, a, b, [], InteractAnni(n, a, b)) && AllocOk(InteractAnni(n, a, b))
  {
    RemovedAgents(n, a, b);
    var m, m' := RemovePair(n, a, b), InteractAnni(n, a, b);
    AnniFrame(n, a, b);
    forall p | n.IsPort(p) && Survives(n, a, b, p.id)
      ensures m'.Target(p) == Follow(n, a, b, [], n.Target(p))
    {
      if Loop(n, a) && Loop(n, b) {
        if Aux(n, a, b, n.Target(p)) { AuxTargets(n, a, b, n.Target(p)); }
      } else if Loop(n, b) {
        LoopWire(n, a, b, m, b, a, p);
      } else if Loop(n, a) {
        LoopWire(n, a, b, m, a, b, p);
      } else {
        AnniWire(n, a, b, m, p);
        assert Across(n, a, b, AgentPort(a, 1)) == AgentPort(b, if n.agents[a].Con? then 2 else 1);
        assert Across(n, a, b, AgentPort(a, 2)) == AgentPort(b, if n.agents[a].Con? then 1 else 2);
      }
    }
    hide InteractAnni, RemovePair, Follow, Clean, Sound;
  }

  lemma AnniFrame(n: Net, a: AgentId, b: AgentId)
    requires Sound(n) && AllocOk(n) && Pair(n, a, b)
    ensures InteractAnni(n, a, b).agents == RemovePair(n, a, b).agents && AllocOk(InteractAnni(n, a, b))
  {
    hide RemovePair, Link, AllocOk, Loop, Sound;
    RemovedAgents(n, a, b);
    LinksAlloc(RemovePair(n, a, b));
  }

  /** Links keep the agents and the allocator. */
  lemma LinksAlloc(m: Net)
    requires AllocOk(m)
    ensures forall x, y :: Link(m, x, y).agents == m.agents && AllocOk(Link(m, x, y))
    ensures forall x, y, u, v :: Link(Link(m, x, y), u, v).agents == m.agents && AllocOk(Link(Link(m, x, y), u, v))
  {
    forall x, y ensures Link(m, x, y).agents == m.agents && AllocOk(Link(m, x, y)) { LinkAlloc(m, x, y); }
    forall x, y, u, v
      ensures Link(Link(m, x, y), u, v).agents == m.agents && AllocOk(Link(Link(m, x, y), u, v))
    {
      LinkAlloc(m, x, y);
      LinkAlloc(Link(m, x, y), u, v);
    }
  }

  lemma LinkAlloc(m: Net, x: PortRef, y: PortRef)
    requires AllocOk(m)
    ensures Link(m, x, y).agents == m.agents && AllocOk(Link(m, x, y))
  {}

  lemma VoidStep(n: Net, a: AgentId, b: AgentId)
    requires Sound(n) && AllocOk(n) && Pair(n, a, b) && n.agents[a].Era?
    ensures Reduced(n, a, b, [], InteractVoid(n, a, b)) && AllocOk(InteractVoid(n, a, b))
  {
    RemovedAgents(n, a, b);
    hide RemovePair;
  }

  /** Every rule, as coded, is the interaction step, whatever ids it allocates. */
  lemma ApplyIsStep(n: Net, a: AgentId, b: AgentId) returns (F: seq<AgentId>)
    requires Sound(n) && AllocOk(n) && Pair(n, a, b) && Clean(n, a, b)
    ensures Reduced(n, a, b, F, Apply(n, a, b)) && AllocOk(Apply(n, a, b))
  {
    hide InteractAnni, InteractVoid, InteractEras, Reduced, AllocOk, Sound, Clean;
    if Anni(n, a, b) {
      AnniStep(n, a, b);
      F := [];
    } else if n.agents[a].Era? {
      VoidStep(n, a, b);
      F := [];
    } else if n.agents[b].Era? {
      F := ErasStep(n, a, b);
    } else {
      F := CommStep(n, a, b);
    }
  }

  lemma CommStep(n: Net, a: AgentId, b: AgentId) returns (F: seq<AgentId>)
    requires Sound(n) && AllocOk(n) && Pair(n, a, b) && Clean(n, a, b) && n.agents[a].Con? && n.agents[b].Dup?
    ensures Reduced(n, a, b, F, InteractComm(n, a, b)) && AllocOk(InteractComm(n, a, b))
  {
    if Loop(n, a) && Loop(n, b) {
      F := [];
      RemovedAgents(n, a, b);
      assert InteractComm(n, a, b) == RemovePair(n, a, b);
      hide RemovePair, InteractComm;
      forall p | n.IsPort(p) && Survives(n, a, b, p.id) ensures Outside(a, b, n.Target(p)) {
        if Aux(n, a, b, n.Target(p)) { AuxTargets(n, a, b, n.Target(p)); }
      }
    } else if Loop(n, a) {
      F := CopyLoopStep(n, a, b, Con);
      hide CopyLoop, Reduced, AllocOk, Clean, Sound;
    } else if Loop(n, b) {
      F := CopyLoopStep(n, a, b, Dup);
      hide CopyLoop, Reduced, AllocOk, Clean, Sound;
    } else {
      F := CommFourStep(n, a, b);
    }
  }
}
