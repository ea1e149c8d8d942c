/** Wrapping a whole net into a stream of one batch, and assembling it again. */
module Chunked {
  import opened Nets
  import opened Assembler
  import opened AssemblerExact
  import opened AssemblerWires
  import opened AssemblerResult

  /** What one port contributes: each wire between agents is emitted from its lower id. */
  function DirectivesAt(n: Net, p: PortRef): seq<Directive>
    requires p.AgentPort?
  {
    match n.Target(p)
    case AgentPort(t, q) => if p.id < t then [Resolved(p, AgentPort(t, q))] else []
    case FreePort(name) => if name != U32_MAX then [FreePortInterface(p, name)] else []
  }

  function PortsUpTo(n: Net, id: AgentId, k: nat): seq<Directive> {
    if k == 0 then [] else PortsUpTo(n, id, k - 1) + DirectivesAt(n, AgentPort(id, k - 1))
  }

  function SlotDirectives(n: Net, id: AgentId): seq<Directive> {
    if id in n.agents then PortsUpTo(n, id, TotalPorts(n.agents[id])) else []
  }

  function SlotsUpTo(n: Net, k: nat): seq<Directive> {
    if k == 0 then [] else SlotsUpTo(n, k - 1) + SlotDirectives(n, k - 1)
  }

  function Listed(n: Net, k: nat): seq<(AgentId, Symbol)> {
    if k == 0 then []
    else Listed(n, k - 1) + if k - 1 in n.agents then [(k - 1, n.agents[k - 1])] else []
  }

  function WholeBatch(n: Net): Batch {
    Batch(Listed(n, n.arena), SlotsUpTo(n, n.arena))
  }

  /** The inner walk, over the ports of one agent. */
  method WalkPorts(n: Net, id: AgentId, before: seq<Directive>) returns (connections: seq<Directive>)
    requires id in n.agents
    ensures connections == before + SlotDirectives(n, id)
  {
    connections := before;
    for port := 0 to TotalPorts(n.agents[id])
      invariant connections == before + PortsUpTo(n, id, port)
    {
      match n.Target(AgentPort(id, port)) {
        case AgentPort(t, q) =>
          if id < t { connections := connections + [Resolved(AgentPort(id, port), AgentPort(t, q))]; }
        case FreePort(name) =>
          if name != U32_MAX { connections := connections + [FreePortInterface(AgentPort(id, port), name)]; }
      }
    }
  }

  /** The source's two walks over the arena. */
  method DefaultChunked(n: Net) returns (stream: seq<Batch>)
    ensures stream == [WholeBatch(n)]
  {
    hide PortsUpTo;
    var agents, connections := [], [];
    for id := 0 to n.arena
      invariant agents == Listed(n, id)
    {
      if id in n.agents { agents := agents + [(id, n.agents[id])]; }
    }
    for id := 0 to n.arena
      invariant connections == SlotsUpTo(n, id)
    {
      if id in n.agents { connections := WalkPorts(n, id, connections); }
    }
    stream := [Batch(agents, connections)];
  }

  // ------------------------------------------------------------------- the agents

  lemma {:induction false} ListedIds(n: Net, k: nat)
    ensures forall i :: 0 <= i < |Listed(n, k)| ==> Listed(n, k)[i].0 < k
    ensures forall i, j :: 0 <= i < j < |Listed(n, k)| ==> Listed(n, k)[i].0 < Listed(n, k)[j].0
  {
    if k > 0 { ListedIds(n, k - 1); }
  }

  lemma {:induction false} ListedAgents(n: Net, k: nat)
    ensures forall id: AgentId :: id in Introduce(BLANK, Listed(n, k)).agents <==> id in n.agents && id < k
    ensures forall id: AgentId :: id in n.agents && id < k ==> Introduce(BLANK, Listed(n, k)).agents[id] == n.agents[id]
  {
    if k > 0 {
      ListedAgents(n, k - 1);
      if k - 1 in n.agents {
        var last := (k - 1, n.agents[k - 1]);
        assert Listed(n, k)[..|Listed(n, k)| - 1] == Listed(n, k - 1);
        assert Introduce(BLANK, Listed(n, k)) == CreateAt(Introduce(BLANK, Listed(n, k - 1)), last.0, last.1);
      } else {
        assert Listed(n, k) == Listed(n, k - 1);
      }
    }
  }

  lemma SingleBatch(b: Batch)
    ensures Symbols([b]) == Introduce(BLANK, b.agents)
    ensures Wires([b]) == WiresIn(b.connections)
    ensures Arrived([b]) == Ids(b)
  {
    assert [b][..0] == [];
  }

  // -------------------------------------------------------------------- the wires

  /** Port `p` of `n` emits the wire to `q`. */
  predicate Emits(n: Net, p: PortRef, q: PortRef) {
    && n.IsPort(p) && n.Target(p) == q
    && (if q.AgentPort? then p.id < q.id else q != DISCONNECTED)
  }

  lemma DirectivesAtWires(n: Net, p: PortRef)
    requires n.IsPort(p)
    ensures WiresIn(DirectivesAt(n, p)) == if Emits(n, p, n.Target(p)) then [Wire(p, n.Target(p))] else []
    ensures forall d :: d in DirectivesAt(n, p) ==> Typed(d) && !d.Pending?
  {
    var ds := DirectivesAt(n, p);
    if ds != [] { assert ds[..0] == []; }
  }

  /** Wire `w` is emitted by one of the first `k` ports of agent `id`. */
  predicate EmittedByPorts(n: Net, w: Wire, id: AgentId, k: nat) {
    Emits(n, w.p, w.q) && w.p.id == id && w.p.port < k
  }

  lemma EmittedPorts(n: Net, id: AgentId, k: nat)
    requires id in n.agents && 0 < k <= TotalPorts(n.agents[id])
    ensures forall w :: EmittedByPorts(n, w, id, k) <==>
      EmittedByPorts(n, w, id, k - 1) || w in WiresIn(DirectivesAt(n, AgentPort(id, k - 1)))
    ensures forall u, v :: EmittedByPorts(n, u, id, k - 1) && v in WiresIn(DirectivesAt(n, AgentPort(id, k - 1))) ==> u.p != v.p
    ensures DistinctSources(WiresIn(DirectivesAt(n, AgentPort(id, k - 1))))
  {
    hide DirectivesAt;
    DirectivesAtWires(n, AgentPort(id, k - 1));
    forall w ensures EmittedByPorts(n, w, id, k) <==>
      EmittedByPorts(n, w, id, k - 1) || w in WiresIn(DirectivesAt(n, AgentPort(id, k - 1)))
    {
      assert w.p == AgentPort(id, k - 1) <==> w.p.AgentPort? && w.p.id == id && w.p.port == k - 1;
    }
  }

  lemma {:induction false} PortsUpToWires(n: Net, id: AgentId, k: nat)
    requires id in n.agents && k <= TotalPorts(n.agents[id])
    ensures DistinctSources(WiresIn(PortsUpTo(n, id, k)))
    ensures forall w :: w in WiresIn(PortsUpTo(n, id, k)) <==> EmittedByPorts(n, w, id, k)
    ensures forall d :: d in PortsUpTo(n, id, k) ==> Typed(d) && !d.Pending?
  {
    hide DirectivesAt, Typed;
    if k > 0 {
      var p := AgentPort(id, k - 1);
      PortsUpToWires(n, id, k - 1);
      DirectivesAtWires(n, p);
      EmittedPorts(n, id, k);
      hide EmittedByPorts;
      WiresInConcat(PortsUpTo(n, id, k - 1), DirectivesAt(n, p));
      DistinctConcat(WiresIn(PortsUpTo(n, id, k - 1)), WiresIn(DirectivesAt(n, p)));
    }
  }

  predicate EmittedBelow(n: Net, w: Wire, k: nat) {
    Emits(n, w.p, w.q) && w.p.id < k
  }

  predicate EmittedAt(n: Net, w: Wire, id: AgentId) {
    Emits(n, w.p, w.q) && w.p.id == id
  }

  lemma EmittedStep(n: Net, k: nat)
    requires k > 0
    ensures forall w :: EmittedBelow(n, w, k) <==> EmittedBelow(n, w, k - 1) || EmittedAt(n, w, k - 1)
    ensures forall u, v :: EmittedBelow(n, u, k - 1) && EmittedAt(n, v, k - 1) ==> u.p != v.p
  {}

  lemma {:induction false} SlotsUpToWires(n: Net, k: nat)
    ensures DistinctSources(WiresIn(SlotsUpTo(n, k)))
    ensures forall w :: w in WiresIn(SlotsUpTo(n, k)) <==> EmittedBelow(n, w, k)
    ensures forall d :: d in SlotsUpTo(n, k) ==> Typed(d) && !d.Pending?
  {
    hide SlotDirectives, Typed;
    if k > 0 {
      SlotsUpToWires(n, k - 1);
      var rest, last := SlotsUpTo(n, k - 1), SlotDirectives(n, k - 1);
      WiresInConcat(rest, last);
      SlotWires(n, k - 1);
      EmittedStep(n, k);
      hide EmittedBelow, EmittedAt;
      DistinctConcat(WiresIn(rest), WiresIn(last));
    }
  }

  lemma SlotWires(n: Net, id: AgentId)
    ensures var ws := WiresIn(SlotDirectives(n, id));
      && DistinctSources(ws)
      && (forall w :: w in ws <==> EmittedAt(n, w, id))
    ensures forall d :: d in SlotDirectives(n, id) ==> Typed(d) && !d.Pending?
  {
    if id in n.agents { PortsUpToWires(n, id, TotalPorts(n.agents[id])); }
  }

  lemma BatchWires(n: Net)
    requires n.WellFormed()
    ensures var ws := WiresIn(WholeBatch(n).connections);
      && OneSided(ws, p => n.Target(p))
      && (forall w :: w in ws <==> Emits(n, w.p, w.q))
      && AllLegal(n.agents, ws)
  {
    SlotsUpToWires(n, n.arena);
  }

  lemma BatchAgents(n: Net)
    requires n.WellFormed()
    ensures Symbols([WholeBatch(n)]).agents == n.agents
    ensures Arrived([WholeBatch(n)]) == n.agents.Keys
  {
    ListedAgents(n, n.arena);
    SingleBatch(WholeBatch(n));
    SymbolsKeys([WholeBatch(n)]);
  }

  lemma BatchProper(n: Net)
    requires n.WellFormed()
    ensures Proper([WholeBatch(n)])
  {
    var stream := [WholeBatch(n)];
    SingleBatch(WholeBatch(n));
    BatchWires(n);
    OneSidedLinear(Wires(stream), p => n.Target(p));
    BatchAgents(n);
    ListedIds(n, n.arena);
    SlotsUpToWires(n, n.arena);
    assert stream[..0] == [];
  }

  // --------------------------------------------------------------- the round trip

  /** `p` is joined to a port of its own agent. */
  predicate SelfWired(n: Net, p: PortRef) {
    n.IsPort(p) && n.Target(p).AgentPort? && n.Target(p).id == p.id
  }

  lemma BatchAccepted(n: Net, lifetime: nat)
    requires n.WellFormed()
    ensures Assemble([WholeBatch(n)], lifetime).Assembled? <==> ArenaOf(n.agents.Keys) <= MAX_DENSE_ARENA_SLOTS
  {
    hide Assemble;
    var stream := [WholeBatch(n)];
    BatchProper(n);
    BatchAgents(n);
    SlotsUpToWires(n, n.arena);
    AssembleExact(stream, lifetime);
    assert forall r: nat, d: Directive :: !Forward(stream, r, d);
  }

  /** Assembling the wrapped net gives back every agent, every interface wire and every
      wire between two agents; a wire joining two ports of one agent is the only loss. */
  lemma ChunkedRoundTrip(n: Net, lifetime: nat)
    requires n.WellFormed() && ArenaOf(n.agents.Keys) <= MAX_DENSE_ARENA_SLOTS
    ensures var r := Assemble([WholeBatch(n)], lifetime);
      && r.Assembled?
      && r.net.agents == n.agents
      && (forall p :: n.IsPort(p) ==> r.net.Target(p) == if SelfWired(n, p) then DISCONNECTED else n.Target(p))
      && (forall p :: p in r.net.ports ==> n.IsPort(p))
  {
    hide Assemble, Net.WellFormed;
    var stream := [WholeBatch(n)];
    BatchAccepted(n, lifetime);
    BatchProper(n);
    BatchAgents(n);
    SingleBatch(WholeBatch(n));
    BatchWires(n);
    AssembledWires(stream, lifetime);
    AssembledNet(stream, lifetime);
    PortsWithin(Wires(stream), n.agents);
    var net := Assemble(stream, lifetime).net;
    forall p | n.IsPort(p) ensures net.Target(p) == if SelfWired(n, p) then DISCONNECTED else n.Target(p) {
      PortRestored(n, net, Wires(stream), p);
    }
  }

  lemma PortRestored(n: Net, net: Net, ws: seq<Wire>, p: PortRef)
    requires n.WellFormed() && n.IsPort(p)
    requires forall w :: w in ws <==> Emits(n, w.p, w.q)
    requires forall w :: w in ws ==> net.Target(w.p) == w.q && (w.q.AgentPort? ==> net.Target(w.q) == w.p)
    requires forall q :: q in net.ports ==> HasEnd(ws, q)
    ensures net.Target(p) == if SelfWired(n, p) then DISCONNECTED else n.Target(p)
  {
    var q := n.Target(p);
    if Emits(n, p, q) {
      assert Wire(p, q) in ws;
    } else if q.AgentPort? && p.id != q.id {
      assert Emits(n, q, p);
      assert Wire(q, p) in ws;
    } else if p in net.ports {
      var w :| w in ws && p in Ends(w);
      assert Emits(n, w.p, w.q);
    }
  }

  /** The round trip is exact on nets without self-wired agents, and only on those. */
  lemma ChunkedExact(n: Net, lifetime: nat)
    requires n.WellFormed() && ArenaOf(n.agents.Keys) <= MAX_DENSE_ARENA_SLOTS
    ensures var r := Assemble([WholeBatch(n)], lifetime);
      r.Assembled? && ((forall p :: n.IsPort(p) ==> r.net.Target(p) == n.Target(p)) <==> (forall p :: !SelfWired(n, p)))
  {
    hide Assemble;
    ChunkedRoundTrip(n, lifetime);
    var net := Assemble([WholeBatch(n)], lifetime).net;
    if p :| SelfWired(n, p) {
      assert n.IsPort(p) && net.Target(p) != n.Target(p);
    }
  }

  /** Every active pair of the net is queued once, from its lower id. */
  lemma ChunkedRedexes(n: Net, lifetime: nat, a: AgentId, b: AgentId)
    requires n.WellFormed() && ArenaOf(n.agents.Keys) <= MAX_DENSE_ARENA_SLOTS
    ensures var r := Assemble([WholeBatch(n)], lifetime);
      && r.Assembled?
      && multiset(r.net.redexes)[(a, b)]
         == if a < b && a in n.agents && n.Target(AgentPort(a, 0)) == AgentPort(b, 0) then 1 else 0
  {
    hide Assemble, Net.WellFormed;
    var stream, w := [WholeBatch(n)], Wire(AgentPort(a, 0), AgentPort(b, 0));
    BatchAccepted(n, lifetime);
    BatchProper(n);
    AssembledNet(stream, lifetime);
    SingleBatch(WholeBatch(n));
    BatchWires(n);
    RedexCount(Wires(stream), a, b);
    assert w in Wires(stream) <==> w in multiset(Wires(stream));
    if w in Wires(stream) { CountOnce(Wires(stream), w); }
  }
}
