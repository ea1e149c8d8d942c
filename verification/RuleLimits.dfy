/** Exactly when a coded rule keeps the net intact. */
module RuleLimits {
  import opened Nets
  import opened NetOps
  import opened Interaction
  import opened Rules

  /** Every legal port carries a wire; only the root port is exempt. */
  ghost predicate Wired(n: Net) {
    forall p :: n.IsPort(p) && n.root != Some(p) ==> n.Target(p) != DISCONNECTED
  }

  /** The root, if any, is an unconnected principal port; unused slots are clean. */
  ghost predicate Tidy(n: Net) {
    && (n.root.Some? ==> n.IsPort(n.root.value) && n.root.value.port == 0 && n.Target(n.root.value) == DISCONNECTED)
    && (forall p :: !n.IsPort(p) ==> n.Target(p) == DISCONNECTED)
  }

  ghost predicate Intact(n: Net) {
    Sound(n) && Wired(n)
  }

  /** The pair is wired in a way the rule cannot handle: an annihilation with just
      one joined pair of ports, at least one other wire of which reaches an agent;
      or a commutation with any joined pair of ports. */
  ghost predicate Damaged(n: Net, a: AgentId, b: AgentId)
    requires Pair(n, a, b)
  {
    && !Clean(n, a, b)
    && (Anni(n, a, b) ==> exists p :: n.IsPort(p) && Survives(n, a, b, p.id) && Aux(n, a, b, n.Target(p)))
  }

  lemma CleanStaysWired(n: Net, a: AgentId, b: AgentId, F: seq<AgentId>, m: Net)
    requires Sound(n) && Wired(n) && Tidy(n) && Pair(n, a, b) && Clean(n, a, b) && Reduced(n, a, b, F, m)
    requires m.root == n.root
    ensures Wired(m)
  {
    forall p | m.IsPort(p) && m.root != Some(p) ensures m.Target(p) != DISCONNECTED {
      if Survives(n, a, b, p.id) {
        assert n.IsPort(p);
        FollowWired(n, a, b, F, n.Target(p));
      } else {
        var k :| 0 <= k < |F| && F[k] == p.id;
        if p.port == 0 {
          SourceOutside(n, a, b, k);
          HeirWire(n, a, b, F, m, k);
          assert n.IsPort(Source(n, a, b, k));
        } else {
          InnerWire(n, a, b, F, m, k, p.port);
        }
        assert p == AgentPort(F[k], p.port);
      }
    }
  }

  lemma FollowWired(n: Net, a: AgentId, b: AgentId, F: seq<AgentId>, r: PortRef)
    requires Sound(n) && Wired(n) && Tidy(n) && Pair(n, a, b) && r != DISCONNECTED
    ensures Follow(n, a, b, F, r) != DISCONNECTED
  {
    if Aux(n, a, b, r) && Anni(n, a, b) {
      assert n.IsPort(Across(n, a, b, r));
      var s := n.Target(Across(n, a, b, r));
      if Aux(n, a, b, s) { assert n.IsPort(Across(n, a, b, s)); }
    }
  }

  // ------------------------------------------------------------------- unclean annihilation

  /** An unclean annihilation links nothing. */
  lemma UncleanAnni(n: Net, a: AgentId, b: AgentId)
    requires Sound(n) && AllocOk(n) && Pair(n, a, b) && Anni(n, a, b) && !Clean(n, a, b)
    ensures InteractAnni(n, a, b) == RemovePair(n, a, b)
  {
    RemovedAgents(n, a, b);
    AuxTargets(n, a, b, AgentPort(a, 1));
    AuxTargets(n, a, b, AgentPort(a, 2));
    AuxTargets(n, a, b, AgentPort(b, 1));
    AuxTargets(n, a, b, AgentPort(b, 2));
    hide RemovePair, Connect, AllocOk;
  }

  lemma UncleanAnniExact(n: Net, a: AgentId, b: AgentId)
    requires Intact(n) && Tidy(n) && AllocOk(n) && Pair(n, a, b) && Anni(n, a, b) && !Clean(n, a, b)
    ensures Intact(InteractAnni(n, a, b)) <==> !Damaged(n, a, b)
  {
    UncleanAnni(n, a, b);
    RemovedAgents(n, a, b);
    RemovePairFacts(n, a, b);
    var m := RemovePair(n, a, b);
    hide RemovePair, InteractAnni, AllocOk, Clean;
    if p :| n.IsPort(p) && Survives(n, a, b, p.id) && Aux(n, a, b, n.Target(p)) {
      assert m.Target(p) == DISCONNECTED && m.IsPort(p) && n.root != Some(p);
    } else {
      forall p | m.IsPort(p) && m.root != Some(p) ensures m.Target(p) != DISCONNECTED {
        assert n.IsPort(p) && Outside(a, b, n.Target(p));
      }
    }
  }

  // ------------------------------------------------------------------- unclean commutation

  /** Ports of agents that are not live are disconnected, also after a removal. */
  lemma RemovedSlots(n: Net, a: AgentId, b: AgentId, p: PortRef)
    requires Sound(n) && AllocOk(n) && Tidy(n) && Pair(n, a, b) && p.AgentPort? && !Survives(n, a, b, p.id)
    ensures RemovePair(n, a, b).Target(p) == DISCONNECTED
  {
    var m := RemoveAgent(n, a);
    RemoveAgentSound(n, a);
    DisconnectAllTarget(n, a, TotalPorts(n.agents[a]), p);
    DisconnectAllTarget(m, b, TotalPorts(m.agents[b]), p);
    hide DisconnectAll;
  }

  lemma CreateSlot(n: Net, s: Symbol, p: PortRef)
    requires p.AgentPort? && n.Target(p) == DISCONNECTED
    ensures CreateAgent(n, s).Target(p) == DISCONNECTED
  {}

  lemma {:induction false} CreateSlots(n: Net, ss: seq<Symbol>, p: PortRef)
    requires p.AgentPort? && n.Target(p) == DISCONNECTED
    ensures Create(n, ss).0.Target(p) == DISCONNECTED
  {
    if ss != [] {
      CreateSlots(n, ss[..|ss| - 1], p);
      CreateSlot(Create(n, ss[..|ss| - 1]).0, ss[|ss| - 1], p);
    }
  }

  /** The ends a commutation links are either outside or auxiliary ports. */
  lemma CommEnd(n: Net, a: AgentId, b: AgentId, F: seq<AgentId>, u: PortRef, k: nat)
    requires Sound(n) && Pair(n, a, b) && Aux(n, a, b, u) && Allocated(n, a, b, F) && k < |F|
    ensures n.Target(u) != AgentPort(F[k], 0)
  {
    AuxTargets(n, a, b, u);
  }

  /** Linking the four agents leaves the principal port of agent `k` alone, except
      for its own link. */
  lemma LinkFourAt(m: Net, F: seq<AgentId>, t: seq<PortRef>, k: nat)
    requires AllocOk(m) && |F| == |t| == 4 && k < 4 && (forall i :: 0 <= i < 4 ==> F[i] in m.agents)
    requires forall i, j :: 0 <= i < j < 4 ==> F[i] != F[j]
    requires forall i :: 0 <= i < 4 ==> t[i] != AgentPort(F[k], 0)
    ensures LinkFour(m, F, t[0], t[1], t[2], t[3]).Target(AgentPort(F[k], 0))
            == if Gone(m, t[k]) then m.Target(AgentPort(F[k], 0)) else t[k]
    ensures LinkFour(m, F, t[0], t[1], t[2], t[3]).agents == m.agents
    ensures AllocOk(LinkFour(m, F, t[0], t[1], t[2], t[3]))
  {
    var x := AgentPort(F[k], 0);
    var m1 := Link(m, AgentPort(F[0], 0), t[0]);
    var m2 := Link(m1, AgentPort(F[1], 0), t[1]);
    var m3 := Link(m2, AgentPort(F[2], 0), t[2]);
    LinkAny(m, AgentPort(F[0], 0), t[0], x);
    LinkAny(m1, AgentPort(F[1], 0), t[1], x);
    LinkAny(m2, AgentPort(F[2], 0), t[2], x);
    LinkAny(m3, AgentPort(F[3], 0), t[3], x);
    hide Link, AllocOk;
    assert k == 0 || k == 1 || k == 2 || k == 3;
  }

  lemma WireFourPrincipal(m: Net, F: seq<AgentId>, x: AgentId)
    requires |F| == 4
    ensures WireFour(m, F).Target(AgentPort(x, 0)) == m.Target(AgentPort(x, 0))
    ensures WireFour(m, F).agents == m.agents && WireFour(m, F).root == m.root
  {
    var p, q, r, s := F[0], F[1], F[2], F[3];
    var m1 := Connect(m, AgentPort(p, 1), AgentPort(r, 1));
    var m2 := Connect(m1, AgentPort(p, 2), AgentPort(s, 1));
    var m3 := Connect(m2, AgentPort(q, 1), AgentPort(r, 2));
    hide Connect, Net.Target;
    ConnectKeeps(m, AgentPort(p, 1), AgentPort(r, 1), AgentPort(x, 0));
    ConnectKeeps(m1, AgentPort(p, 2), AgentPort(s, 1), AgentPort(x, 0));
    ConnectKeeps(m2, AgentPort(q, 1), AgentPort(r, 2), AgentPort(x, 0));
    ConnectKeeps(m3, AgentPort(q, 2), AgentPort(s, 2), AgentPort(x, 0));
  }

  lemma RootElsewhere(n: Net, a: AgentId, b: AgentId, F: seq<AgentId>, k: nat)
    requires Tidy(n) && Pair(n, a, b) && Allocated(n, a, b, F) && k < |F|
    ensures n.root != Some(AgentPort(F[k], 0))
  {}

  /** If the joined port is gone, the new principal port stays disconnected. */
  lemma DeadEnd(n: Net, a: AgentId, b: AgentId, F: seq<AgentId>, m: Net, w: Net, k: nat)
    requires Sound(n) && AllocOk(n) && Tidy(n) && Pair(n, a, b) && (m, F) == Create(RemovePair(n, a, b), Born(n, a, b))
    requires AgentsReduced(n, a, b, F, m) && k < |F|
    requires w.root == m.root && w.agents == m.agents && w.Target(AgentPort(F[k], 0)) == m.Target(AgentPort(F[k], 0))
    ensures !Wired(w)
  {
    var x := AgentPort(F[k], 0);
    RemovedSlots(n, a, b, x);
    CreateSlots(RemovePair(n, a, b), Born(n, a, b), x);
    RemovePairFacts(n, a, b);
    RootElsewhere(n, a, b, F, k);
    hide Create, RemovePair, AllocOk, Sound, Tidy;
    assert w.IsPort(x);
  }

  /** If the id was recycled, the wire is one-way. */
  lemma OneWay(n: Net, a: AgentId, b: AgentId, F: seq<AgentId>, m: Net, k: nat, j: nat)
    requires Pair(n, a, b) && Born(n, a, b) == [Dup, Dup, Con, Con] && !Loop(n, a) && !Loop(n, b)
    requires AgentsReduced(n, a, b, F, m) && k < 4 && 1 <= j <= 2 && b in F
    requires m.Target(AgentPort(F[k], 0)) == AgentPort(b, j)
    ensures !Sound(WireFour(m, F))
  {
    var w := WireFour(m, F);
    WireFourPrincipal(m, F, F[k]);
    WireFourInner(n, a, b, F, m);
    var l :| 0 <= l < 4 && F[l] == b;
    hide WireFour, AllocOk, Loop, Pair;
    assert w.IsPort(AgentPort(F[k], 0));
    assert j < TotalPorts(Born(n, a, b)[l]);
    assert w.Target(AgentPort(F[l], j)) == AgentPort(F[Inner(n, a, b, l, j).0], Inner(n, a, b, l, j).1);
  }

  /** An unclean commutation leaves the principal port of the agent that should
      take over the joined wire with no wire, or with a one-way one. */
  lemma UncleanComm(n: Net, a: AgentId, b: AgentId)
    requires Sound(n) && AllocOk(n) && Tidy(n) && Pair(n, a, b) && n.agents[a].Con? && n.agents[b].Dup? && !Clean(n, a, b)
    ensures !Intact(InteractComm(n, a, b))
  {
    var i, j := Joined(n, a, b);
    hide WireFour, LinkFour, InteractComm, Create, RemovePair, Sound, Clean, CutAway, Linked, AllocOk, Intact, Loop, AgentsReduced, Born, Tidy, Net.Target, Ends;
    var m, F := Start(n, a, b);
    CommEnds(n, a, b, F, m, i - 1);
    CommUnfold(n, a, b, F, m);
    UncleanLinks(n, a, b, F, m, Ends(n, a, b), i - 1, j);
  }

  /** The targets of the four auxiliary ports. */
  function Ends(n: Net, a: AgentId, b: AgentId): (t: seq<PortRef>)
    ensures |t| == 4
  {
    [n.Target(AgentPort(a, 1)), n.Target(AgentPort(a, 2)), n.Target(AgentPort(b, 1)), n.Target(AgentPort(b, 2))]
  }

  lemma Joined(n: Net, a: AgentId, b: AgentId) returns (i: nat, j: nat)
    requires Sound(n) && Pair(n, a, b) && n.agents[a].Con? && n.agents[b].Dup? && !Clean(n, a, b)
    ensures 1 <= i <= 2 && 1 <= j <= 2 && Ends(n, a, b)[i - 1] == AgentPort(b, j)
    ensures !Loop(n, a) && !Loop(n, b) && Born(n, a, b) == [Dup, Dup, Con, Con]
  {
    i, j :| 1 <= i <= 2 && 1 <= j <= 2 && n.Target(AgentPort(a, i)) == AgentPort(b, j);
    assert n.IsPort(AgentPort(a, i)) && n.Target(AgentPort(b, j)) == AgentPort(a, i);
  }

  lemma CommUnfold(n: Net, a: AgentId, b: AgentId, F: seq<AgentId>, m: Net)
    requires Pair(n, a, b) && Born(n, a, b) == [Dup, Dup, Con, Con] && !Loop(n, a) && !Loop(n, b)
    requires (m, F) == Create(RemovePair(n, a, b), Born(n, a, b))
    ensures var t := Ends(n, a, b); InteractComm(n, a, b) == WireFour(LinkFour(m, F, t[0], t[1], t[2], t[3]), F)
  {
    hide WireFour, LinkFour, Create, RemovePair;
  }

  lemma CommEnds(n: Net, a: AgentId, b: AgentId, F: seq<AgentId>, m: Net, k: nat)
    requires Sound(n) && Pair(n, a, b) && n.agents[a].Con? && n.agents[b].Dup? && AgentsReduced(n, a, b, F, m) && k < |F|
    ensures forall l :: 0 <= l < 4 ==> Ends(n, a, b)[l] != AgentPort(F[k], 0)
  {
    CommEnd(n, a, b, F, AgentPort(a, 1), k);
    CommEnd(n, a, b, F, AgentPort(a, 2), k);
    CommEnd(n, a, b, F, AgentPort(b, 1), k);
    CommEnd(n, a, b, F, AgentPort(b, 2), k);
  }

  lemma NewAgents(n: Net, a: AgentId, b: AgentId, F: seq<AgentId>, m: Net)
    requires Pair(n, a, b) && AgentsReduced(n, a, b, F, m)
    ensures AllocOk(m) && |F| == |Born(n, a, b)| && (forall i :: 0 <= i < |F| ==> F[i] in m.agents)
    ensures forall i, j :: 0 <= i < j < |F| ==> F[i] != F[j]
    ensures b in m.agents <==> b in F
  {}

  lemma SameAgents(n: Net, a: AgentId, b: AgentId, F: seq<AgentId>, m: Net, m': Net)
    requires Pair(n, a, b) && AgentsReduced(n, a, b, F, m) && AllocOk(m') && m'.agents == m.agents
    ensures AgentsReduced(n, a, b, F, m')
  {}

  lemma UncleanLinks(n: Net, a: AgentId, b: AgentId, F: seq<AgentId>, m: Net, t: seq<PortRef>, k: nat, j: nat)
    requires Sound(n) && AllocOk(n) && Tidy(n) && Pair(n, a, b) && (m, F) == Create(RemovePair(n, a, b), Born(n, a, b))
    requires AgentsReduced(n, a, b, F, m) && Born(n, a, b) == [Dup, Dup, Con, Con] && !Loop(n, a) && !Loop(n, b)
    requires |t| == 4 && k < 4 && 1 <= j <= 2 && t[k] == AgentPort(b, j) && (forall l :: 0 <= l < 4 ==> t[l] != AgentPort(F[k], 0))
    ensures !Intact(WireFour(LinkFour(m, F, t[0], t[1], t[2], t[3]), F))
  {
    hide WireFour, LinkFour, Create, RemovePair, Sound, AllocOk, AgentsReduced, Wired, Loop, Born, Tidy;
    var m' := LinkFour(m, F, t[0], t[1], t[2], t[3]);
    NewAgents(n, a, b, F, m);
    LinkFourAt(m, F, t, k);
    SameAgents(n, a, b, F, m, m');
    WireFourPrincipal(m', F, F[k]);
    if Gone(m, t[k]) {
      DeadEnd(n, a, b, F, m, WireFour(m', F), k);
    } else {
      OneWay(n, a, b, F, m', k, j);
    }
  }

  /** Exactly when a rule keeps a net intact. */
  lemma ApplyExact(n: Net, a: AgentId, b: AgentId)
    requires Intact(n) && Tidy(n) && AllocOk(n) && Pair(n, a, b)
    ensures Intact(Apply(n, a, b)) <==> !Damaged(n, a, b)
  {
    if Clean(n, a, b) {
      var F := ApplyIsStep(n, a, b);
      ReducedSound(n, a, b, F, Apply(n, a, b));
      ApplyRoot(n, a, b);
      CleanStaysWired(n, a, b, F, Apply(n, a, b));
    } else {
      hide Intact, Tidy, InteractAnni, InteractComm, Clean, AllocOk;
      UncleanExact(n, a, b);
    }
  }

  lemma UncleanExact(n: Net, a: AgentId, b: AgentId)
    requires Intact(n) && Tidy(n) && AllocOk(n) && Pair(n, a, b) && !Clean(n, a, b)
    ensures Intact(Apply(n, a, b)) <==> !Damaged(n, a, b)
  {
    if Anni(n, a, b) {
      UncleanAnniExact(n, a, b);
    } else {
      UncleanComm(n, a, b);
    }
  }

  /** The rules do not move the root. */
  lemma ApplyRoot(n: Net, a: AgentId, b: AgentId)
    requires Sound(n) && AllocOk(n) && Pair(n, a, b)
    ensures Apply(n, a, b).root == n.root
  {
    RemovePairFacts(n, a, b);
    var m := RemovePair(n, a, b);
    hide Link, Connect, RemovePair, Create, AllocOk, LinkFour, WireFour, Loop;
  }

  // ----------------------------------------------------------- both kinds of damage occur

  /** Two constructors facing each other and also joined at their first auxiliary ports,
      one other wire on an eraser, one on a label. */
  const JOINED_CONS: Net :=
    Net(map[0 := Con, 1 := Con, 2 := Era],
        map[AgentPort(0, 0) := AgentPort(1, 0), AgentPort(1, 0) := AgentPort(0, 0),
            AgentPort(0, 1) := AgentPort(1, 1), AgentPort(1, 1) := AgentPort(0, 1),
            AgentPort(0, 2) := AgentPort(2, 0), AgentPort(2, 0) := AgentPort(0, 2),
            AgentPort(1, 2) := FreePort(1)],
        3, 3, [(0, 1)], None, [], true)

  /** A constructor facing a duplicator and also joined to it at one auxiliary port. */
  const JOINED_CON_DUP: Net :=
    Net(map[0 := Con, 1 := Dup],
        map[AgentPort(0, 0) := AgentPort(1, 0), AgentPort(1, 0) := AgentPort(0, 0),
            AgentPort(0, 1) := AgentPort(1, 1), AgentPort(1, 1) := AgentPort(0, 1),
            AgentPort(0, 2) := FreePort(1), AgentPort(1, 2) := FreePort(2)],
        2, 2, [(0, 1)], None, [], true)

  /** A net that stores a wire for each of its ports, and for those only, is intact. */
  lemma StoredIntact(n: Net)
    requires forall p :: n.IsPort(p) <==> p in n.ports
    requires forall p :: p in n.ports ==> n.ports[p] != DISCONNECTED && n.ports[p] != p
    requires forall p :: p in n.ports && n.ports[p].AgentPort? ==> n.ports[p] in n.ports && n.ports[n.ports[p]] == p
    requires forall id :: id in n.agents ==> id < n.arena
    requires n.root == None
    ensures Intact(n) && Tidy(n)
  {}

  lemma JoinedConsPorts()
    ensures var n := JOINED_CONS; forall p :: n.IsPort(p) <==> p in n.ports
  {
    forall p | JOINED_CONS.IsPort(p) ensures p in JOINED_CONS.ports { assert p == AgentPort(p.id, p.port); }
  }

  lemma JoinedConsWires()
    ensures var n := JOINED_CONS;
      && (forall p :: p in n.ports ==> n.ports[p] != DISCONNECTED && n.ports[p] != p)
      && (forall p :: p in n.ports && n.ports[p].AgentPort? ==> n.ports[p] in n.ports && n.ports[n.ports[p]] == p)
      && (forall id :: id in n.agents ==> id < n.arena) && AllocOk(n)
  {}

  lemma JoinedConsPair()
    ensures var n := JOINED_CONS; Pair(n, 0, 1) && Anni(n, 0, 1) && Damaged(n, 0, 1)
  {
    var n, p := JOINED_CONS, AgentPort(2, 0);
    assert n.IsPort(p) && Survives(n, 0, 1, p.id) && Aux(n, 0, 1, n.Target(p));
  }

  /** The annihilation drops the wire of the eraser. */
  lemma AnnihilationDamages()
    ensures var n := JOINED_CONS;
      Intact(n) && Tidy(n) && AllocOk(n) && Pair(n, 0, 1) && Anni(n, 0, 1) && Damaged(n, 0, 1) && !Intact(Apply(n, 0, 1))
  {
    JoinedConsPorts();
    JoinedConsWires();
    JoinedConsPair();
    hide Apply, Damaged, AllocOk, Pair, Anni, Intact, Tidy;
    StoredIntact(JOINED_CONS);
    ApplyExact(JOINED_CONS, 0, 1);
  }

  lemma JoinedConDupPorts()
    ensures var n := JOINED_CON_DUP; forall p :: n.IsPort(p) <==> p in n.ports
  {
    forall p | JOINED_CON_DUP.IsPort(p) ensures p in JOINED_CON_DUP.ports { assert p == AgentPort(p.id, p.port); }
  }

  lemma JoinedConDupWires()
    ensures var n := JOINED_CON_DUP;
      && (forall p :: p in n.ports ==> n.ports[p] != DISCONNECTED && n.ports[p] != p)
      && (forall p :: p in n.ports && n.ports[p].AgentPort? ==> n.ports[p] in n.ports && n.ports[n.ports[p]] == p)
      && (forall id :: id in n.agents ==> id < n.arena) && AllocOk(n)
  {}

  lemma JoinedConDupPair()
    ensures var n := JOINED_CON_DUP; Pair(n, 0, 1) && !Anni(n, 0, 1) && Damaged(n, 0, 1)
  {
    assert JOINED_CON_DUP.Target(AgentPort(0, 1)) == AgentPort(1, 1);
  }

  /** The commutation leaves a principal port without a wire, or with a one-way one. */
  lemma CommutationDamages()
    ensures var n := JOINED_CON_DUP;
      Intact(n) && Tidy(n) && AllocOk(n) && Pair(n, 0, 1) && !Anni(n, 0, 1) && Damaged(n, 0, 1) && !Intact(Apply(n, 0, 1))
  {
    JoinedConDupPorts();
    JoinedConDupWires();
    JoinedConDupPair();
    hide Apply, Damaged, AllocOk, Pair, Anni, Intact, Tidy;
    StoredIntact(JOINED_CON_DUP);
    ApplyExact(JOINED_CON_DUP, 0, 1);
  }
}
