/** The net an accepted stream assembles to. */
module AssemblerResult {
  import opened Nets
  import opened Assembler
  import opened AssemblerExact
  import opened AssemblerWires

  ghost predicate Within(small: map<AgentId, Symbol>, big: map<AgentId, Symbol>) {
    forall id :: id in small ==> id in big && small[id] == big[id]
  }

  /** The net holds exactly the wires `ws`, plugged in that order. */
  ghost predicate Tracks(net: SparseNet, ws: seq<Wire>, all: map<AgentId, Symbol>) {
    && Within(net.agents, all)
    && net.ports == Ports(ws)
    && net.redexes == Redexes(ws)
  }

  lemma PlugTracks(net: SparseNet, ws: seq<Wire>, all: map<AgentId, Symbol>, w: Wire)
    requires Tracks(net, ws, all) && Legal(all, w)
    ensures Tracks(Plug(net, w.p, w.q), ws + [w], all)
  {
    assert (ws + [w])[..|ws|] == ws;
  }

  function Postponed(waiting: seq<Entry>): seq<Wire> {
    if waiting == [] then []
    else
      var k := |waiting| - 1;
      Postponed(waiting[..k]) + [Wire(waiting[k].source, waiting[k].target)]
  }

  lemma PostponedMore(waiting: seq<Entry>, e: Entry)
    ensures Postponed(waiting + [e]) == Postponed(waiting) + [Wire(e.source, e.target)]
  {
    assert (waiting + [e])[..|waiting|] == waiting;
  }

  lemma Shift(x: multiset<Wire>, p: multiset<Wire>, a: multiset<Wire>, b: multiset<Wire>, w: multiset<Wire>)
    requires x + p == a + b
    ensures x + (p + w) == a + (b + w)
    ensures (x + w) + p == a + (b + w)
  {
    assert x + (p + w) == (x + p) + w;
    assert (x + w) + p == (x + p) + w;
    assert a + (b + w) == (a + b) + w;
  }

  lemma {:induction false} RecordTracks(s: Assembly, ds: seq<Directive>, ws: seq<Wire>, all: map<AgentId, Symbol>)
    returns (vs: seq<Wire>)
    requires Tracks(s.net, ws, all) && AllLegal(all, WiresIn(ds))
    ensures Tracks(Record(s, ds).net, vs, all)
    ensures multiset(vs) + multiset(Postponed(Record(s, ds).waiting))
         == multiset(ws) + multiset(Postponed(s.waiting)) + multiset(WiresIn(ds))
  {
    hide Tracks, Legal, Postponed;
    vs := ws;
    if ds != [] {
      var k := |ds| - 1;
      var w := WireOf(ds[k]);
      assert WiresIn(ds) == WiresIn(ds[..k]) + [w];
      assert w in WiresIn(ds);
      assert AllLegal(all, WiresIn(ds[..k])) by {
        forall v | v in WiresIn(ds[..k]) ensures Legal(all, v) { assert v in WiresIn(ds); }
      }
      vs := RecordTracks(s, ds[..k], ws, all);
      Shift(multiset(vs), multiset(Postponed(Record(s, ds[..k]).waiting)), multiset(ws) + multiset(Postponed(s.waiting)),
            multiset(WiresIn(ds[..k])), multiset{w});
      var t := Record(s, ds[..k]);
      if ds[k].Pending? {
        PostponedMore(t.waiting, Entry(ds[k].source, ds[k].target, s.chunk));
        assert multiset(Postponed(Record(s, ds).waiting)) == multiset(Postponed(t.waiting)) + multiset{w};
        assert multiset(Postponed(Record(s, ds).waiting)) - multiset{w} == multiset(Postponed(t.waiting));
      } else {
        PlugTracks(t.net, vs, all, w);
        assert Record(s, ds).waiting == t.waiting;
        assert multiset(vs + [w]) == multiset(vs) + multiset{w};
        vs := vs + [w];
      }
      assert multiset(WiresIn(ds)) == multiset(WiresIn(ds[..k])) + multiset{w};
      assert multiset(vs) + multiset(Postponed(Record(s, ds).waiting))
          == multiset(ws) + multiset(Postponed(s.waiting)) + multiset(WiresIn(ds));
    } else {
      assert WiresIn(ds) == [] && Record(s, ds).waiting == s.waiting;
      assert multiset(WiresIn(ds)) == multiset{};
      assert multiset(ws) + multiset(Postponed(s.waiting)) + multiset{} == multiset(ws) + multiset(Postponed(s.waiting));
    }
  }

  lemma {:induction false} RetainTracks(net: SparseNet, waiting: seq<Entry>, ws: seq<Wire>, all: map<AgentId, Symbol>)
    returns (vs: seq<Wire>)
    requires Tracks(net, ws, all) && AllLegal(all, Postponed(waiting))
    ensures Tracks(Retain(net, waiting).0, vs, all)
    ensures multiset(vs) + multiset(Postponed(Retain(net, waiting).1)) == multiset(ws) + multiset(Postponed(waiting))
  {
    hide Tracks, Legal;
    vs := ws;
    if waiting != [] {
      var k := |waiting| - 1;
      var w := Wire(waiting[k].source, waiting[k].target);
      assert Postponed(waiting) == Postponed(waiting[..k]) + [w];
      assert w in Postponed(waiting);
      assert AllLegal(all, Postponed(waiting[..k])) by {
        forall v | v in Postponed(waiting[..k]) ensures Legal(all, v) { assert v in Postponed(waiting); }
      }
      vs := RetainTracks(net, waiting[..k], ws, all);
      Shift(multiset(vs), multiset(Postponed(Retain(net, waiting[..k]).1)), multiset(ws), multiset(Postponed(waiting[..k])),
            multiset{w});
      var (n, kept) := Retain(net, waiting[..k]);
      if Ready(n, waiting[k]) {
        PlugTracks(n, vs, all, w);
        assert Retain(net, waiting).1 == kept;
        assert multiset(vs + [w]) == multiset(vs) + multiset{w};
        vs := vs + [w];
      } else {
        assert Retain(net, waiting).1 == kept + [waiting[k]];
        PostponedMore(kept, waiting[k]);
        assert multiset(Postponed(kept + [waiting[k]])) == multiset(Postponed(kept)) + multiset{w};
      }
      assert multiset(Postponed(waiting)) == multiset(Postponed(waiting[..k])) + multiset{w};
      assert multiset(vs) + multiset(Postponed(Retain(net, waiting).1)) == multiset(ws) + multiset(Postponed(waiting));
    } else {
      assert Retain(net, waiting).1 == waiting;
    }
  }

  /** Introducing agents does not look at the wires. */
  lemma {:induction false} IntroduceFrame(net: SparseNet, other: SparseNet, agents: seq<(AgentId, Symbol)>)
    requires net.agents == other.agents && net.nextId == other.nextId
    ensures var m, l := Introduce(net, agents), Introduce(other, agents);
      m.agents == l.agents && m.nextId == l.nextId && m.ports == net.ports && m.redexes == net.redexes
  {
    if agents != [] { IntroduceFrame(net, other, agents[..|agents| - 1]); }
  }

  lemma LegalPart(all: map<AgentId, Symbol>, ws: seq<Wire>, vs: seq<Wire>, us: seq<Wire>)
    requires AllLegal(all, us) && multiset(ws) + multiset(vs) == multiset(us)
    ensures AllLegal(all, vs)
  {
    forall v | v in vs ensures Legal(all, v) {
      assert v in multiset(vs);
      assert v in multiset(us);
    }
  }

  lemma AbsorbTracks(s: Assembly, b: Batch, ws: seq<Wire>, us: seq<Wire>, all: map<AgentId, Symbol>) returns (vs: seq<Wire>)
    requires Tracks(s.net, ws, all) && Within(Introduce(s.net, b.agents).agents, all)
    requires multiset(ws) + multiset(Postponed(s.waiting)) == multiset(us)
    requires AllLegal(all, us + WiresIn(b.connections))
    ensures Tracks(Absorb(s, b).net, vs, all)
    ensures multiset(vs) + multiset(Postponed(Absorb(s, b).waiting)) == multiset(us + WiresIn(b.connections))
  {
    IntroduceFrame(s.net, s.net, b.agents);
    var t := s.(net := Introduce(s.net, b.agents));
    assert AllLegal(all, WiresIn(b.connections)) by {
      forall v | v in WiresIn(b.connections) ensures Legal(all, v) { assert v in us + WiresIn(b.connections); }
    }
    var xs := RecordTracks(t, b.connections, ws, all);
    var r := Record(t, b.connections);
    LegalPart(all, xs, Postponed(r.waiting), us + WiresIn(b.connections));
    vs := RetainTracks(r.net, r.waiting, xs, all);
  }

  /** Whatever the batches, the wires plugged and the wires postponed are the wires of the stream. */
  lemma {:induction false} FeedTracks(stream: seq<Batch>, lifetime: nat, all: map<AgentId, Symbol>) returns (ws: seq<Wire>)
    requires FeedAll(stream, lifetime).Some?
    requires forall k :: 0 <= k <= |stream| ==> Within(Symbols(stream[..k]).agents, all)
    requires AllLegal(all, Wires(stream))
    ensures var s := FeedAll(stream, lifetime).value;
      && Tracks(s.net, ws, all)
      && multiset(ws) + multiset(Postponed(s.waiting)) == multiset(Wires(stream))
      && s.net.agents == Symbols(stream).agents && s.net.nextId == Symbols(stream).nextId
  {
    hide Legal, Absorb;
    ws := [];
    if stream != [] {
      var k := |stream| - 1;
      var before, b := stream[..k], stream[k];
      forall j | 0 <= j <= k ensures Within(Symbols(before[..j]).agents, all) { assert before[..j] == stream[..j]; }
      assert AllLegal(all, Wires(before)) by {
        forall v | v in Wires(before) ensures Legal(all, v) { assert v in Wires(stream); }
      }
      ws := FeedTracks(before, lifetime, all);
      var s := FeedAll(before, lifetime).value;
      IntroduceFrame(s.net, Symbols(before), b.agents);
      assert stream[..|stream|] == stream;
      ws := AbsorbTracks(s, b, ws, Wires(before), all);
      AbsorbAgents(s, b);
    }
  }

  lemma AbsorbAgents(s: Assembly, b: Batch)
    ensures Absorb(s, b).net.agents == Introduce(s.net, b.agents).agents
    ensures Absorb(s, b).net.nextId == Introduce(s.net, b.agents).nextId
  {}

  // -------------------------------------------------------------- agents of a stream

  lemma {:induction false} SymbolsKeys(stream: seq<Batch>)
    ensures Symbols(stream).agents.Keys == Arrived(stream)
  {
    if stream != [] {
      SymbolsKeys(stream[..|stream| - 1]);
      IntroduceKeys(Symbols(stream[..|stream| - 1]), stream[|stream| - 1].agents);
    }
  }

  lemma {:induction false} IntroduceKeeps(net: SparseNet, agents: seq<(AgentId, Symbol)>)
    requires forall i :: 0 <= i < |agents| ==> agents[i].0 !in net.agents
    ensures Within(net.agents, Introduce(net, agents).agents)
  {
    if agents != [] { IntroduceKeeps(net, agents[..|agents| - 1]); }
  }

  lemma {:induction false} SymbolsGrow(stream: seq<Batch>, k: nat)
    requires k <= |stream| && UniqueIds(stream)
    ensures Within(Symbols(stream[..k]).agents, Symbols(stream).agents)
    decreases |stream|
  {
    hide UniqueIds, Symbols, Within;
    if k == |stream| {
      assert stream[..k] == stream;
      WithinSelf(Symbols(stream).agents);
    } else {
      var j := |stream| - 1;
      UniquePrefix(stream);
      SymbolsGrow(stream[..j], k);
      assert stream[..j][..k] == stream[..k];
      LastKeeps(stream);
      WithinThen(Symbols(stream[..k]).agents, Symbols(stream[..j]).agents, Symbols(stream).agents);
    }
  }

  lemma WithinSelf(m: map<AgentId, Symbol>)
    ensures Within(m, m)
  {}

  lemma WithinThen(l: map<AgentId, Symbol>, m: map<AgentId, Symbol>, n: map<AgentId, Symbol>)
    requires Within(l, m) && Within(m, n)
    ensures Within(l, n)
  {}

  lemma LastKeeps(stream: seq<Batch>)
    requires stream != [] && UniqueIds(stream)
    ensures Within(Symbols(stream[..|stream| - 1]).agents, Symbols(stream).agents)
  {
    var j := |stream| - 1;
    SymbolsKeys(stream[..j]);
    assert Ids(stream[j]) !! Arrived(stream[..j]);
    hide Arrived, UniqueIds;
    forall i | 0 <= i < |stream[j].agents| ensures stream[j].agents[i].0 !in Symbols(stream[..j]).agents {
      assert stream[j].agents[i].0 in Ids(stream[j]);
    }
    IntroduceKeeps(Symbols(stream[..j]), stream[j].agents);
  }

  lemma UniquePrefix(stream: seq<Batch>)
    requires stream != [] && UniqueIds(stream)
    ensures UniqueIds(stream[..|stream| - 1])
  {
    var before := stream[..|stream| - 1];
    forall k | 0 <= k < |before| ensures Ids(before[k]) !! Arrived(before[..k]) {
      assert before[..k] == stream[..k];
    }
  }

  // ------------------------------------------------------------------ the result

  /** A proper stream that is accepted becomes one net, whatever its batches: all its
      agents, every wire plugged once at both ends, nothing else. */
  lemma AssembledNet(stream: seq<Batch>, lifetime: nat)
    requires Proper(stream) && Assemble(stream, lifetime).Assembled?
    ensures var net := Assemble(stream, lifetime).net;
      && net.agents == Symbols(stream).agents
      && net.ports == Ports(Wires(stream))
      && multiset(net.redexes) == multiset(Redexes(Wires(stream)))
      && net.arena == ArenaOf(net.agents.Keys) && net.nextId == Symbols(stream).nextId
      && net.freeList == Gaps(net.agents, net.arena) && net.root == None && net.recycling
  {
    hide Linear, Ports, Redexes, Wires, Symbols, FeedAll, UniqueIds, AllTyped;
    var all, us := Symbols(stream).agents, Wires(stream);
    forall k | 0 <= k <= |stream| ensures Within(Symbols(stream[..k]).agents, all) { SymbolsGrow(stream, k); }
    var s := FeedAll(stream, lifetime).value;
    var ws := FeedTracks(stream, lifetime, all);
    assert multiset(ws) == multiset(us);
    PortsPermuted(us, ws);
    RedexesPermuted(us, ws);
    PortsWithin(us, all);
    var arena := ArenaOf(s.net.agents.Keys);
    assert (map p | p in s.net.ports && p.AgentPort? && p.id < arena :: s.net.ports[p]) == s.net.ports;
  }

  lemma PortsWithin(ws: seq<Wire>, all: map<AgentId, Symbol>)
    requires Linear(ws) && AllLegal(all, ws)
    ensures forall p :: p in Ports(ws) ==> Unwired(all).IsPort(p)
  {
    hide Linear, Ports;
    PortsOfLinear(ws);
    forall p | p in Ports(ws) ensures Unwired(all).IsPort(p) {
      assert HasEnd(ws, p);
      var w :| w in ws && p in Ends(w);
      assert Legal(all, w);
    }
  }

  /** Every directive is installed at both ends, and every wire installed comes from one. */
  lemma AssembledWires(stream: seq<Batch>, lifetime: nat)
    requires Proper(stream) && Assemble(stream, lifetime).Assembled?
    ensures var net := Assemble(stream, lifetime).net;
      && (forall w :: w in Wires(stream) ==>
            net.Target(w.p) == w.q && (w.q.AgentPort? ==> net.Target(w.q) == w.p))
      && (forall p :: p in net.ports ==> HasEnd(Wires(stream), p))
      && net.WellFormed()
  {
    hide Linear, Ports, Assemble, Wires, Symbols, Legal, Carries, Net.WellFormed;
    var net, ws := Assemble(stream, lifetime).net, Wires(stream);
    AssembledNet(stream, lifetime);
    PortsOfLinear(ws);
    PortsWithin(ws, net.agents);
    forall w | w in ws ensures net.Target(w.p) == w.q && (w.q.AgentPort? ==> net.Target(w.q) == w.p) {
      CarriedTarget(net, w, w.p);
    }
    CarriedWellFormed(net, ws);
  }

  lemma CarriedTarget(net: Net, w: Wire, p: PortRef)
    requires Carries(net.ports, w) && Legal(net.agents, w) && p in Ends(w)
    ensures net.Target(w.p) == w.q && (w.q.AgentPort? ==> net.Target(w.q) == w.p)
    ensures net.Target(p).AgentPort? ==> net.IsPort(net.Target(p)) && net.Target(net.Target(p)) == p
  {}

  lemma CarriedWellFormed(net: Net, ws: seq<Wire>)
    requires forall w :: w in ws ==> Carries(net.ports, w)
    requires AllLegal(net.agents, ws)
    requires forall p :: p in net.ports ==> HasEnd(ws, p)
    requires forall id :: id in net.agents ==> id < net.arena
    ensures net.WellFormed()
  {
    hide Carries, Legal, Ends;
    forall p | net.IsPort(p) && net.Target(p).AgentPort?
      ensures net.IsPort(net.Target(p)) && net.Target(net.Target(p)) == p
    {
      assert HasEnd(ws, p);
      var w :| w in ws && p in Ends(w);
      CarriedTarget(net, w, p);
    }
  }

  /** Two accepted streams with the same agents and the same wires, cut and ordered
      in any way, assemble to the same net up to the order of the redex queue. */
  lemma CutIndependent(s: seq<Batch>, t: seq<Batch>, l: nat, m: nat)
    requires Proper(s) && Proper(t) && Assemble(s, l).Assembled? && Assemble(t, m).Assembled?
    requires Symbols(s) == Symbols(t) && multiset(Wires(s)) == multiset(Wires(t))
    ensures Assemble(s, l).net == Assemble(t, m).net.(redexes := Assemble(s, l).net.redexes)
    ensures multiset(Assemble(s, l).net.redexes) == multiset(Assemble(t, m).net.redexes)
  {
    AssembledNet(s, l);
    AssembledNet(t, m);
    PortsPermuted(Wires(s), Wires(t));
    RedexesPermuted(Wires(s), Wires(t));
  }
}
