/** The operations that build and change a net. */
module NetOps {
  import opened Nets

  /** Writes one slot; interface ends and slots beyond the arena have none. */
  function SetPort(n: Net, p: PortRef, t: PortRef): (m: Net)
    ensures m == n.(ports := m.ports)
  {
    if p.AgentPort? && p.id < n.arena then n.(ports := n.ports[p := t]) else n
  }

  predicate Principals(x: PortRef, y: PortRef) {
    x.AgentPort? && y.AgentPort? && x.port == 0 && y.port == 0
  }

  /** Wires two ports, and queues the pair if both are principal. The old partners
      keep pointing here: the last writer wins. */
  function Connect(n: Net, x: PortRef, y: PortRef): (m: Net)
    ensures m == n.(ports := m.ports, redexes := m.redexes)
  {
    var m := SetPort(SetPort(n, x, y), y, x);
    if Principals(x, y) then m.(redexes := m.redexes + [(x.id, y.id)]) else m
  }

  function Disconnect(n: Net, p: PortRef): (m: Net)
    ensures m == n.(ports := m.ports)
  {
    var t := n.Target(p);
    SetPort(if t != DISCONNECTED then SetPort(n, t, DISCONNECTED) else n, p, DISCONNECTED)
  }

  function DisconnectAll(n: Net, id: AgentId, count: nat): (m: Net)
    ensures m == n.(ports := m.ports)
  {
    if count == 0 then n else Disconnect(DisconnectAll(n, id, count - 1), AgentPort(id, count - 1))
  }

  function RemoveAgent(n: Net, id: AgentId): Net {
    if id in n.agents then
      var m := DisconnectAll(n, id, TotalPorts(n.agents[id]));
      m.(agents := m.agents - {id}, freeList := m.freeList + [id])
    else n
  }

  /** The id the next agent gets: the most recently freed one, else a fresh one. */
  function NextFree(n: Net): AgentId {
    if n.recycling && n.freeList != [] then n.freeList[|n.freeList| - 1] else n.nextId
  }

  function CreateAgent(n: Net, s: Symbol): Net {
    var id := NextFree(n);
    var arena := if n.arena <= id then id + 1 else n.arena;
    if n.recycling && n.freeList != [] then
      n.(agents := n.agents[id := s], arena := arena, freeList := n.freeList[..|n.freeList| - 1],
         ports := n.ports[AgentPort(id, 0) := DISCONNECTED][AgentPort(id, 1) := DISCONNECTED][AgentPort(id, 2) := DISCONNECTED])
    else
      n.(agents := n.agents[id := s], arena := arena, nextId := n.nextId + 1)
  }

  /** The next id is not in use: freed ids are dead, and fresh ids are above all. */
  ghost predicate AllocOk(n: Net) {
    && (forall i :: 0 <= i < |n.freeList| ==> n.freeList[i] !in n.agents && n.freeList[i] < n.nextId)
    && (forall i, j :: 0 <= i < j < |n.freeList| ==> n.freeList[i] != n.freeList[j])
    && (forall id :: id in n.agents ==> id < n.nextId && id < n.arena)
  }

  // ------------------------------------------------------------------ what each one does

  lemma ConnectTarget(n: Net, x: PortRef, y: PortRef, p: PortRef)
    ensures Connect(n, x, y).Target(p) ==
      if p == y && y.AgentPort? && y.id < n.arena then x
      else if p == x && x.AgentPort? && x.id < n.arena then y
      else n.Target(p)
  {}

  lemma CreateTarget(n: Net, s: Symbol, p: PortRef)
    ensures p.AgentPort? && p.id != NextFree(n) ==> CreateAgent(n, s).Target(p) == n.Target(p)
    ensures CreateAgent(n, s).Target(AgentPort(NextFree(n), 0)) == DISCONNECTED
              || CreateAgent(n, s).Target(AgentPort(NextFree(n), 0)) == n.Target(AgentPort(NextFree(n), 0))
  {}

  lemma CreateAlloc(n: Net, s: Symbol)
    requires AllocOk(n)
    ensures NextFree(n) !in n.agents && AllocOk(CreateAgent(n, s))
  {}
}
