/** Growing a net: fresh agents, then wires. */
module Building {
  import opened Nets
  import opened NetOps

  type Joint = (PortRef, PortRef)

  /** Fresh ids come from the counter, and nothing is stored above the arena. */
  ghost predicate Growing(n: Net) {
    && (n.recycling ==> n.freeList == [])
    && n.arena <= n.nextId
    && (forall id :: id in n.agents ==> id < n.arena)
    && (forall q :: q in n.ports ==> q.AgentPort? && q.id < n.arena)
  }

  function P(id: AgentId, port: nat): PortRef {
    AgentPort(id, port)
  }

  predicate Linked(n: Net, x: PortRef, y: PortRef) {
    n.Target(x) == y && n.Target(y) == x
  }

  function CreateAll(n: Net, syms: seq<Symbol>): Net {
    if syms == [] then n else CreateAgent(CreateAll(n, syms[..|syms| - 1]), syms[|syms| - 1])
  }

  function ConnectAll(n: Net, ws: seq<Joint>): (m: Net)
    ensures m == n.(ports := m.ports, redexes := m.redexes)
  {
    if ws == [] then n else Connect(ConnectAll(n, ws[..|ws| - 1]), ws[|ws| - 1].0, ws[|ws| - 1].1)
  }

  function Build(n: Net, syms: seq<Symbol>, ws: seq<Joint>): Net {
    ConnectAll(CreateAll(n, syms), ws)
  }

  lemma CreateMore(n: Net, syms: seq<Symbol>, s: Symbol)
    ensures CreateAll(n, syms + [s]) == CreateAgent(CreateAll(n, syms), s)
  {
    assert (syms + [s])[..|syms|] == syms;
  }

  lemma ConnectMore(n: Net, ws: seq<Joint>, w: Joint)
    ensures ConnectAll(n, ws + [w]) == Connect(ConnectAll(n, ws), w.0, w.1)
  {
    assert (ws + [w])[..|ws|] == ws;
  }

  // ---------------------------------------------------------------- fresh agents

  /** The agents of `m` are those of `n` and the new ones, in order. */
  ghost predicate Added(n: Net, m: Net, syms: seq<Symbol>) {
    && (forall id: AgentId :: id in m.agents <==> id in n.agents || n.nextId <= id < n.nextId + |syms|)
    && (forall id :: id in n.agents ==> m.agents[id] == n.agents[id])
    && (forall i :: 0 <= i < |syms| ==> n.nextId + i in m.agents && m.agents[n.nextId + i] == syms[i])
    && m.nextId == n.nextId + |syms|
  }

  lemma CreateOne(n: Net, s: Symbol)
    requires Growing(n)
    ensures CreateAgent(n, s) == n.(agents := n.agents[n.nextId := s], arena := n.nextId + 1, nextId := n.nextId + 1)
    ensures Growing(CreateAgent(n, s)) && NextFree(n) == n.nextId && n.arena <= n.nextId
  {}

  lemma AddedMore(n: Net, m: Net, syms: seq<Symbol>, s: Symbol)
    requires Growing(n) && Added(n, m, syms)
    ensures Added(n, m.(agents := m.agents[m.nextId := s], arena := m.nextId + 1, nextId := m.nextId + 1), syms + [s])
  {
    hide Growing;
    assert forall id :: id in n.agents ==> id < n.nextId by { OldIds(n); }
  }

  lemma OldIds(n: Net)
    requires Growing(n)
    ensures forall id :: id in n.agents ==> id < n.nextId
  {}

  lemma AddedNone(n: Net)
    requires Growing(n)
    ensures Added(n, n, [])
  {}

  lemma {:induction false} CreateAllAdds(n: Net, syms: seq<Symbol>)
    requires Growing(n)
    ensures var m := CreateAll(n, syms);
      && Added(n, m, syms) && Growing(m) && m.nextId == n.nextId + |syms| && m.arena >= n.arena
      && m == n.(agents := m.agents, arena := m.arena, nextId := m.nextId)
      && m.arena == if syms == [] then n.arena else m.nextId
  {
    hide CreateAgent, Growing, Added;
    if syms != [] {
      var k := |syms| - 1;
      CreateAllAdds(n, syms[..k]);
      var m := CreateAll(n, syms[..k]);
      CreateOne(m, syms[k]);
      AddedMore(n, m, syms[..k], syms[k]);
      assert syms == syms[..k] + [syms[k]];
    } else {
      AddedNone(n);
    }
  }

  lemma AddedFrame(n: Net, c: Net, r: Net, syms: seq<Symbol>)
    requires Added(n, c, syms) && r.agents == c.agents && r.nextId == c.nextId
    ensures Added(n, r, syms)
  {}

  lemma FreshIsOpen(n: Net, p: PortRef)
    requires Growing(n) && p.AgentPort? && p.id >= n.nextId
    ensures n.Target(p) == DISCONNECTED
  {}

  // ---------------------------------------------------------------------- wires

  predicate InArena(n: Net, p: PortRef) {
    p.AgentPort? && p.id < n.arena
  }

  /** Every wire is between slots of the arena (or to an interface label) and joins
      what the wiring says. */
  ghost predicate Agrees(n: Net, ws: seq<Joint>, wiring: PortRef -> PortRef) {
    forall w :: w in ws ==>
      && InArena(n, w.0) && wiring(w.0) == w.1
      && (w.1.AgentPort? ==> InArena(n, w.1) && wiring(w.1) == w.0)
  }

  ghost predicate IsEnd(ws: seq<Joint>, p: PortRef) {
    exists w :: w in ws && (p == w.0 || p == w.1)
  }

  /** Wires that agree with one wiring can be made in any order. */
  lemma {:induction false} ConnectAllTarget(n: Net, ws: seq<Joint>, wiring: PortRef -> PortRef, p: PortRef)
    requires Agrees(n, ws, wiring) && p.AgentPort?
    ensures ConnectAll(n, ws).Target(p) == if IsEnd(ws, p) then wiring(p) else n.Target(p)
  {
    if ws != [] {
      var k := |ws| - 1;
      var w := ws[k];
      assert ws == ws[..k] + [w];
      assert w in ws;
      assert Agrees(n, ws[..k], wiring);
      ConnectAllTarget(n, ws[..k], wiring, p);
      ConnectTarget(ConnectAll(n, ws[..k]), w.0, w.1, p);
      assert IsEnd(ws, p) <==> IsEnd(ws[..k], p) || p == w.0 || p == w.1;
    }
  }

  lemma ConnectAllLinked(n: Net, ws: seq<Joint>, wiring: PortRef -> PortRef)
    requires Agrees(n, ws, wiring)
    ensures forall w :: w in ws ==>
      ConnectAll(n, ws).Target(w.0) == w.1 && (w.1.AgentPort? ==> Linked(ConnectAll(n, ws), w.0, w.1))
  {
    forall w | w in ws
      ensures ConnectAll(n, ws).Target(w.0) == w.1 && (w.1.AgentPort? ==> Linked(ConnectAll(n, ws), w.0, w.1))
    {
      ConnectAllTarget(n, ws, wiring, w.0);
      assert IsEnd(ws, w.0) && IsEnd(ws, w.1);
      if w.1.AgentPort? { ConnectAllTarget(n, ws, wiring, w.1); }
    }
  }

  function ActivePairs(ws: seq<Joint>): seq<(AgentId, AgentId)> {
    if ws == [] then []
    else
      var w := ws[|ws| - 1];
      ActivePairs(ws[..|ws| - 1]) + if Principals(w.0, w.1) then [(w.0.id, w.1.id)] else []
  }

  lemma {:induction false} ConnectAllRedexes(n: Net, ws: seq<Joint>)
    ensures ConnectAll(n, ws).redexes == n.redexes + ActivePairs(ws)
  {
    if ws != [] { ConnectAllRedexes(n, ws[..|ws| - 1]); }
  }

  lemma {:induction false} ConnectAllGrowing(n: Net, ws: seq<Joint>)
    requires Growing(n)
    ensures Growing(ConnectAll(n, ws))
  {
    if ws != [] { ConnectAllGrowing(n, ws[..|ws| - 1]); }
  }

  // --------------------------------------------------------- creating after wiring

  lemma CreateCommutes(n: Net, w: Joint, s: Symbol)
    requires Growing(n) && InArena(n, w.0) && (w.1.AgentPort? ==> InArena(n, w.1))
    ensures CreateAgent(Connect(n, w.0, w.1), s) == Connect(CreateAgent(n, s), w.0, w.1)
  {}

  /** An agent created after some wires might as well have been created before them. */
  lemma {:induction false} CreateBefore(n: Net, ws: seq<Joint>, s: Symbol)
    requires Growing(n)
    requires forall w :: w in ws ==> InArena(n, w.0) && (w.1.AgentPort? ==> InArena(n, w.1))
    ensures CreateAgent(ConnectAll(n, ws), s) == ConnectAll(CreateAgent(n, s), ws)
  {
    if ws != [] {
      var k := |ws| - 1;
      assert ws[k] in ws;
      CreateBefore(n, ws[..k], s);
      ConnectAllGrowing(n, ws[..k]);
      CreateCommutes(ConnectAll(n, ws[..k]), ws[k], s);
    }
  }

  lemma {:induction false} CreateAllBefore(n: Net, ws: seq<Joint>, syms: seq<Symbol>)
    requires Growing(n)
    requires forall w :: w in ws ==> InArena(n, w.0) && (w.1.AgentPort? ==> InArena(n, w.1))
    ensures CreateAll(ConnectAll(n, ws), syms) == ConnectAll(CreateAll(n, syms), ws)
  {
    hide Growing;
    if syms != [] {
      var k := |syms| - 1;
      CreateAllBefore(n, ws, syms[..k]);
      CreateAllAdds(n, syms[..k]);
      CreateBefore(CreateAll(n, syms[..k]), ws, syms[k]);
    }
  }

  lemma {:induction false} ConnectSplit(n: Net, us: seq<Joint>, vs: seq<Joint>)
    ensures ConnectAll(n, us + vs) == ConnectAll(ConnectAll(n, us), vs)
  {
    if vs == [] {
      assert us + vs == us;
    } else {
      var k := |vs| - 1;
      assert (us + vs)[..|us + vs| - 1] == us + vs[..k];
      ConnectSplit(n, us, vs[..k]);
    }
  }

  lemma {:induction false} CreateSplit(n: Net, ss: seq<Symbol>, ts: seq<Symbol>)
    ensures CreateAll(n, ss + ts) == CreateAll(CreateAll(n, ss), ts)
  {
    if ts == [] {
      assert ss + ts == ss;
    } else {
      var k := |ts| - 1;
      assert (ss + ts)[..|ss + ts| - 1] == ss + ts[..k];
      CreateSplit(n, ss, ts[..k]);
    }
  }

  // -------------------------------------------------------------- the last writer wins

  predicate Touches(w: Joint, p: PortRef) {
    p == w.0 || p == w.1
  }

  function OtherEnd(w: Joint, p: PortRef): PortRef {
    if p == w.1 then w.0 else w.1
  }

  /** A port that is wired several times ends up where its last wire leads; a port that
      is not wired keeps its target. */
  lemma {:induction false} LastWriterWins(n: Net, ws: seq<Joint>, p: PortRef, i: nat)
    requires InArena(n, p) && i <= |ws| && forall j :: i <= j < |ws| ==> !Touches(ws[j], p)
    requires i > 0 ==> Touches(ws[i - 1], p)
    ensures ConnectAll(n, ws).Target(p) == if i == 0 then n.Target(p) else OtherEnd(ws[i - 1], p)
  {
    if ws != [] {
      var k := |ws| - 1;
      ConnectTarget(ConnectAll(n, ws[..k]), ws[k].0, ws[k].1, p);
      if i <= k { LastWriterWins(n, ws[..k], p, i); }
    }
  }
}
