/** Where the ids of freed agents go: none is lost and the last one freed is used first. */
module Recycling {
  import opened Nets
  import opened NetOps
  import opened Rules
  import opened Interaction
  import opened Engine
  import opened Reducer

  /** Every id handed out so far belongs to a live agent or waits to be used again. */
  ghost predicate NoneLost(n: Net) {
    forall id: AgentId :: id < n.nextId ==> id in n.agents || id in n.freeList
  }

  /** Only the wires differ. */
  predicate SameAllocator(n: Net, m: Net) {
    m.agents == n.agents && m.freeList == n.freeList && m.nextId == n.nextId && m.recycling == n.recycling
  }

  lemma {:induction false} DisconnectAllAllocator(n: Net, id: AgentId, count: nat)
    ensures SameAllocator(n, DisconnectAll(n, id, count))
  {}

  lemma RemoveKeeps(n: Net, id: AgentId)
    requires NoneLost(n)
    ensures NoneLost(RemoveAgent(n, id)) && RemoveAgent(n, id).nextId == n.nextId
  {
    if id in n.agents { DisconnectAllAllocator(n, id, TotalPorts(n.agents[id])); }
  }

  lemma CreateKeeps(n: Net, s: Symbol)
    requires NoneLost(n)
    ensures NoneLost(CreateAgent(n, s))
  {
    var m := CreateAgent(n, s);
    if n.recycling && n.freeList != [] {
      var k := |n.freeList| - 1;
      assert n.freeList == n.freeList[..k] + [n.freeList[k]];
    }
  }

  lemma {:induction false} CreateAllKeeps(n: Net, ss: seq<Symbol>)
    requires NoneLost(n)
    ensures NoneLost(Create(n, ss).0)
  {
    if ss != [] {
      CreateAllKeeps(n, ss[..|ss| - 1]);
      CreateKeeps(Create(n, ss[..|ss| - 1]).0, ss[|ss| - 1]);
      hide NoneLost, CreateAgent;
    }
  }

  lemma PairKeeps(n: Net, a: AgentId, b: AgentId)
    requires NoneLost(n)
    ensures NoneLost(RemovePair(n, a, b))
  {
    RemoveKeeps(n, a);
    RemoveKeeps(RemoveAgent(n, a), b);
  }

  lemma SameKeeps(n: Net, m: Net)
    requires NoneLost(n) && m == n.(ports := m.ports, redexes := m.redexes)
    ensures NoneLost(m)
  {}

  lemma CopyKeeps(m: Net, s: Symbol, x: PortRef, y: PortRef)
    requires NoneLost(m)
    ensures NoneLost(CopyLoop(m, s, x, y))
  {
    CreateAllKeeps(m, [s, s]);
    SameKeeps(Create(m, [s, s]).0, CopyLoop(m, s, x, y));
  }

  /** No rule loses an id. */
  lemma ApplyKeeps(n: Net, a: AgentId, b: AgentId)
    requires NoneLost(n) && a in n.agents && b in n.agents
    ensures NoneLost(Apply(n, a, b))
  {
    hide NoneLost, RemovePair, Link, CopyLoop, WireFour, LinkFour, Create;
    var a1, a2 := n.Target(AgentPort(a, 1)), n.Target(AgentPort(a, 2));
    var b1, b2 := n.Target(AgentPort(b, 1)), n.Target(AgentPort(b, 2));
    var m := RemovePair(n, a, b);
    PairKeeps(n, a, b);
    if !Anni(n, a, b) && n.agents[b].Era? { CreateAllKeeps(m, [Era, Era]); }
    if !Anni(n, a, b) && !n.agents[a].Era? && !n.agents[b].Era? {
      CopyKeeps(m, Con, b1, b2);
      CopyKeeps(m, Dup, a1, a2);
      CreateAllKeeps(m, [Dup, Dup, Con, Con]);
    }
    if Anni(n, a, b) {
      SameKeeps(m, Apply(n, a, b));
    } else if n.agents[b].Era? && !n.agents[a].Era? && !Loop(n, a) {
      SameKeeps(Create(m, [Era, Era]).0, Apply(n, a, b));
    } else if !n.agents[a].Era? && !n.agents[b].Era? && !Loop(n, a) && !Loop(n, b) {
      SameKeeps(Create(m, [Dup, Dup, Con, Con]).0, Apply(n, a, b));
    }
  }

  lemma {:induction false} StepKeeps(n: Net)
    requires NoneLost(n)
    ensures NoneLost(Advance(n).0)
    decreases |n.redexes|
  {
    hide Apply;
    if n.redexes != [] {
      var ((x, y), m) := (n.redexes[0], n.(redexes := n.redexes[1..]));
      if Faces(m, x, y) {
        var (a, b) := Normalized(m, x, y);
        ApplyKeeps(m, a, b);
      } else {
        StepKeeps(m);
      }
    }
  }

  /** Nor does the reduction loop, whatever net it is given. */
  lemma {:induction false} LoopKeeps(n: Net, stats: Stats, budget: nat)
    requires NoneLost(n)
    ensures NoneLost(AdvanceN(n, stats, budget).0)
    decreases budget - stats.total
  {
    hide Advance, NoneLost;
    if stats.total < budget {
      StepKeeps(n);
      var (m, r) := Advance(n);
      if r.Reduced? { LoopKeeps(m, stats.Count(r.rule), budget); }
    }
  }

  function Below(top: nat): (ids: set<AgentId>)
    ensures |ids| == top && forall id: AgentId :: id in ids <==> id < top
  {
    if top == 0 then {} else Below(top - 1) + {top - 1}
  }

  ghost function Listed(ids: seq<AgentId>): (r: set<AgentId>)
    requires forall i, j :: 0 <= i < j < |ids| ==> ids[i] != ids[j]
    ensures |r| == |ids| && forall id: AgentId :: id in r <==> id in ids
  {
    if ids == [] then {}
    else
      var k := |ids| - 1;
      assert ids == ids[..k] + [ids[k]];
      assert ids[k] !in ids[..k];
      Listed(ids[..k]) + {ids[k]}
  }

  /** With a sound allocator each such id is in exactly one place, so the counts add up. */
  lemma EachInOnePlace(n: Net)
    requires NoneLost(n) && AllocOk(n)
    ensures |n.agents| + |n.freeList| == n.nextId
  {
    OnePlace(n.agents.Keys, Listed(n.freeList), n.nextId);
  }

  lemma OnePlace(live: set<AgentId>, free: set<AgentId>, top: nat)
    requires forall id: AgentId :: id < top <==> id in live || id in free
    requires live !! free
    ensures |live| + |free| == top
  {
    assert live + free == Below(top);
    assert |live + free| == |live| + |free|;
  }

  /** Removing an agent and creating one of its symbol brings the same id back: agents, free
      list and counter are as before, and the only wires that are gone are those of the agent. */
  lemma FreedComesBack(n: Net, id: AgentId)
    requires n.recycling && AllocOk(n) && n.WellFormed() && id in n.agents
    ensures var m := RemoveAgent(n, id); var r := CreateAgent(m, n.agents[id]);
      && NextFree(m) == id && SameAllocator(n, r) && r.arena == n.arena && r.redexes == n.redexes
      && forall p :: r.IsPort(p) ==>
           r.Target(p) == if At(p, id) || At(n.Target(p), id) then DISCONNECTED else n.Target(p)
  {
    var k := TotalPorts(n.agents[id]);
    var m := RemoveAgent(n, id);
    var r := CreateAgent(m, n.agents[id]);
    DisconnectAllAllocator(n, id, k);
    assert (n.freeList + [id])[..|n.freeList|] == n.freeList;
    forall p | r.IsPort(p)
      ensures r.Target(p) == if At(p, id) || At(n.Target(p), id) then DISCONNECTED else n.Target(p)
    {
      if p.id != id {
        RemoveAgentTarget(n, id, p);
      }
    }
  }
}
