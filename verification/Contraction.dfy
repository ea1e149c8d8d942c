/** Annihilating matched constructors in any order: what is left are the wires of the
    original net, followed through the agents that are gone. */
module Contraction {
  import opened Nets
  import opened NetOps
  import opened Interaction
  import opened Engine
  import opened Runs
  import R = Reducer

  type Match = map<AgentId, AgentId>

  /** Constructors matched two by two. */
  ghost predicate Matching(o: Net, mates: Match) {
    forall x :: x in mates ==>
      x in o.agents && o.agents[x].Con? && mates[x] in mates && mates[x] != x && mates[mates[x]] == x
  }

  /** An auxiliary port of an agent that is gone. */
  predicate Inside(gone: set<AgentId>, t: PortRef) {
    t.AgentPort? && t.id in gone && 1 <= t.port <= 2
  }

  /** Where a wire that comes in at `t` goes out again. */
  function Across2(mates: Match, t: PortRef): PortRef
    requires t.AgentPort? && t.id in mates && 1 <= t.port <= 2
  {
    AgentPort(mates[t.id], 3 - t.port)
  }

  /** The thread from `p` comes to `t` after `k` passages. */
  ghost predicate Reach(o: Net, mates: Match, gone: set<AgentId>, p: PortRef, k: nat, t: PortRef)
    decreases k
  {
    var s := o.Target(p);
    if k == 0 then s == t
    else Inside(gone, s) && s.id in mates && Reach(o, mates, gone, Across2(mates, s), k - 1, t)
  }

  /** The thread from `p` ends at `t`. */
  ghost predicate Leads(o: Net, mates: Match, gone: set<AgentId>, p: PortRef, t: PortRef) {
    !Inside(gone, t) && exists k: nat :: Reach(o, mates, gone, p, k, t)
  }

  lemma {:induction false} ReachUnique(o: Net, mates: Match, gone: set<AgentId>, p: PortRef, k: nat, t: PortRef, l: nat, u: PortRef)
    requires Reach(o, mates, gone, p, k, t) && Reach(o, mates, gone, p, l, u) && !Inside(gone, t) && !Inside(gone, u)
    ensures t == u
    decreases k
  {
    if k > 0 && l > 0 { ReachUnique(o, mates, gone, Across2(mates, o.Target(p)), k - 1, t, l - 1, u); }
  }

  lemma LeadsUnique(o: Net, mates: Match, gone: set<AgentId>, p: PortRef, t: PortRef, u: PortRef)
    requires Leads(o, mates, gone, p, t) && Leads(o, mates, gone, p, u)
    ensures t == u
  {
    var k: nat :| Reach(o, mates, gone, p, k, t);
    var l: nat :| Reach(o, mates, gone, p, l, u);
    ReachUnique(o, mates, gone, p, k, t, l, u);
  }

  lemma {:induction false} ReachGrows(o: Net, mates: Match, gone: set<AgentId>, more: set<AgentId>, p: PortRef, k: nat, t: PortRef)
    requires Reach(o, mates, gone, p, k, t) && gone <= more
    ensures Reach(o, mates, more, p, k, t)
    decreases k
  {
    if k > 0 { ReachGrows(o, mates, gone, more, Across2(mates, o.Target(p)), k - 1, t); }
  }

  /** A thread that is inside an agent goes on from its mate. */
  lemma {:induction false} ReachOn(o: Net, mates: Match, gone: set<AgentId>, p: PortRef, k: nat, t: PortRef, l: nat, u: PortRef)
    requires Reach(o, mates, gone, p, k, t) && Inside(gone, t) && t.id in mates && Reach(o, mates, gone, Across2(mates, t), l, u)
    ensures Reach(o, mates, gone, p, k + 1 + l, u)
    decreases k
  {
    if k > 0 { ReachOn(o, mates, gone, Across2(mates, o.Target(p)), k - 1, t, l, u); }
  }

  lemma LeadsNow(o: Net, mates: Match, gone: set<AgentId>, p: PortRef)
    requires !Inside(gone, o.Target(p))
    ensures Leads(o, mates, gone, p, o.Target(p))
  {
    assert Reach(o, mates, gone, p, 0, o.Target(p));
  }

  lemma LeadsOn(o: Net, mates: Match, gone: set<AgentId>, p: PortRef, t: PortRef)
    requires Inside(gone, o.Target(p)) && o.Target(p).id in mates
    requires Leads(o, mates, gone, Across2(mates, o.Target(p)), t)
    ensures Leads(o, mates, gone, p, t)
  {
    var k: nat :| Reach(o, mates, gone, Across2(mates, o.Target(p)), k, t);
    assert Reach(o, mates, gone, p, k + 1, t);
  }

  // ----------------------------------------------------------------- the net that is left

  /** `n` is `o` without the agents `gone`, its wires followed through them. */
  ghost predicate Contracted(o: Net, mates: Match, gone: set<AgentId>, n: Net) {
    && (forall x :: x in gone ==> x in mates && mates[x] in gone)
    && (forall x :: x in n.agents <==> x in o.agents && x !in gone)
    && (forall x :: x in n.agents && x in o.agents ==> n.agents[x] == o.agents[x])
    && (forall p :: n.IsPort(p) ==> Leads(o, mates, gone, p, n.Target(p)))
  }

  lemma ContractedStart(o: Net, mates: Match)
    ensures Contracted(o, mates, {}, o)
  {
    forall p | o.IsPort(p) ensures Leads(o, mates, {}, p, o.Target(p)) { LeadsNow(o, mates, {}, p); }
  }

  lemma WireOf(o: Net, mates: Match, gone: set<AgentId>, n: Net, p: PortRef, t: PortRef)
    requires Contracted(o, mates, gone, n) && n.IsPort(p) && Leads(o, mates, gone, p, t)
    ensures n.Target(p) == t
  {
    LeadsUnique(o, mates, gone, p, n.Target(p), t);
  }

  /** Passing through the pair that goes next. */
  lemma PassNext(o: Net, mates: Match, gone: set<AgentId>, more: set<AgentId>, p: PortRef, t: PortRef, s: PortRef)
    requires gone <= more && t.AgentPort? && Inside(more, t) && t.id in mates
    requires exists k: nat :: Reach(o, mates, more, p, k, t)
    requires exists l: nat :: Reach(o, mates, gone, Across2(mates, t), l, s)
    ensures exists k: nat :: Reach(o, mates, more, p, k, s)
  {
    var k: nat :| Reach(o, mates, more, p, k, t);
    var l: nat :| Reach(o, mates, gone, Across2(mates, t), l, s);
    ReachGrows(o, mates, gone, more, Across2(mates, t), l, s);
    ReachOn(o, mates, more, p, k, t, l, s);
  }

  /** The pair (x, y) is next to go. */
  ghost predicate Next(o: Net, mates: Match, gone: set<AgentId>, n: Net, x: AgentId, y: AgentId) {
    && Matching(o, mates) && Contracted(o, mates, gone, n) && Sound(n) && Pair(n, x, y) && x in mates && mates[x] == y
    && Clean(n, x, y)
  }

  lemma NextMates(o: Net, mates: Match, gone: set<AgentId>, n: Net, x: AgentId, y: AgentId)
    requires Next(o, mates, gone, n, x, y)
    ensures y in mates && mates[y] == x && n.agents[x].Con? && n.agents[y].Con? && Anni(n, x, y)
    ensures forall t :: Aux(n, x, y, t) ==> 1 <= t.port <= 2 && t.id in mates && Across(n, x, y, t) == Across2(mates, t) && n.IsPort(Across2(mates, t))
  {}

  lemma ThreadAt(o: Net, mates: Match, gone: set<AgentId>, n: Net, p: PortRef)
    requires Contracted(o, mates, gone, n) && n.IsPort(p)
    ensures Leads(o, mates, gone, p, n.Target(p))
  {}

  lemma ThreadGrows(o: Net, mates: Match, gone: set<AgentId>, more: set<AgentId>, p: PortRef, t: PortRef)
    requires Leads(o, mates, gone, p, t) && gone <= more
    ensures exists k: nat :: Reach(o, mates, more, p, k, t)
  {
    var k: nat :| Reach(o, mates, gone, p, k, t);
    ReachGrows(o, mates, gone, more, p, k, t);
  }

  lemma StillOutside(o: Net, mates: Match, gone: set<AgentId>, n: Net, x: AgentId, y: AgentId, p: PortRef, t: PortRef)
    requires Next(o, mates, gone, n, x, y) && !Inside(gone, t) && !Aux(n, x, y, t)
    ensures !Inside(gone + {x, y}, t)
  {}

  /** Following a wire through the next pair is a stretch of its thread. */
  lemma EndLeads(o: Net, mates: Match, gone: set<AgentId>, n: Net, x: AgentId, y: AgentId, p: PortRef)
    requires Next(o, mates, gone, n, x, y) && n.IsPort(p) && Survives(n, x, y, p.id)
    ensures Leads(o, mates, gone + {x, y}, p, End(n, x, y, n.Target(p)))
  {
    NextMates(o, mates, gone, n, x, y);
    EndLeaves(n, x, y, p);
    hide Next, Sound, Clean, Pair, Contracted, Matching, Reach, Aux;
    var more, t := gone + {x, y}, n.Target(p);
    AccessNext(o, mates, gone, n, x, y);
    ThreadAt(o, mates, gone, n, p);
    ThreadGrows(o, mates, gone, more, p, t);
    if Aux(n, x, y, t) {
      AuxInside(n, x, y, gone, t);
      var q := Across2(mates, t);
      var s := n.Target(q);
      ThreadAt(o, mates, gone, n, q);
      PassNext(o, mates, gone, more, p, t, s);
      if Aux(n, x, y, s) {
        AuxInside(n, x, y, gone, s);
        var r := Across2(mates, s);
        ThreadAt(o, mates, gone, n, r);
        PassNext(o, mates, gone, more, p, s, n.Target(r));
        StillOutside(o, mates, gone, n, x, y, p, n.Target(r));
      } else {
        StillOutside(o, mates, gone, n, x, y, p, s);
      }
    } else {
      StillOutside(o, mates, gone, n, x, y, p, t);
    }
  }

  lemma AuxInside(n: Net, x: AgentId, y: AgentId, gone: set<AgentId>, t: PortRef)
    requires Aux(n, x, y, t)
    ensures t.AgentPort? && Inside(gone + {x, y}, t)
  {}

  lemma AccessNext(o: Net, mates: Match, gone: set<AgentId>, n: Net, x: AgentId, y: AgentId)
    requires Next(o, mates, gone, n, x, y)
    ensures Contracted(o, mates, gone, n) && x in n.agents && y in n.agents && Pair(n, x, y)
    ensures x != y && x in mates && mates[x] == y && x !in gone && y !in gone && Clean(n, x, y)
  {}

  lemma StepAgents(n: Net, x: AgentId, y: AgentId, F: seq<AgentId>, m: Net)
    requires Pair(n, x, y) && Anni(n, x, y) && Reduced(n, x, y, F, m)
    ensures F == [] && (forall z :: z in m.agents <==> Survives(n, x, y, z))
    ensures forall z :: z in m.agents && z in n.agents ==> m.agents[z] == n.agents[z]
  {}

  lemma StepWire(n: Net, x: AgentId, y: AgentId, m: Net, p: PortRef)
    requires Pair(n, x, y) && Reduced(n, x, y, [], m) && n.IsPort(p) && Survives(n, x, y, p.id)
    ensures m.Target(p) == End(n, x, y, n.Target(p))
  {
    assert m.Target(p) == Follow(n, x, y, [], n.Target(p));
  }

  lemma ContractedAgents(o: Net, mates: Match, gone: set<AgentId>, n: Net)
    requires Contracted(o, mates, gone, n)
    ensures forall x :: x in gone ==> x in mates && mates[x] in gone
    ensures forall x :: x in n.agents <==> x in o.agents && x !in gone
    ensures forall x :: x in n.agents && x in o.agents ==> n.agents[x] == o.agents[x]
  {}

  lemma MakeContracted(o: Net, mates: Match, gone: set<AgentId>, n: Net)
    requires forall x :: x in gone ==> x in mates && mates[x] in gone
    requires forall x :: x in n.agents <==> x in o.agents && x !in gone
    requires forall x :: x in n.agents && x in o.agents ==> n.agents[x] == o.agents[x]
    requires forall p :: n.IsPort(p) ==> Leads(o, mates, gone, p, n.Target(p))
    ensures Contracted(o, mates, gone, n)
  {
    hide Leads;
  }

  /** Annihilating the next pair contracts it. */
  lemma StepContracts(o: Net, mates: Match, gone: set<AgentId>, n: Net, x: AgentId, y: AgentId, F: seq<AgentId>, m: Net)
    requires Next(o, mates, gone, n, x, y) && Reduced(n, x, y, F, m)
    ensures Contracted(o, mates, gone + {x, y}, m) && x !in gone && y !in gone && x != y
  {
    hide Next, Reduced, Leads, Aux, Contracted, Anni, Pair, End;
    NextMates(o, mates, gone, n, x, y);
    AccessNext(o, mates, gone, n, x, y);
    StepAgents(n, x, y, F, m);
    ContractedAgents(o, mates, gone, n);
    forall p | m.IsPort(p) ensures Leads(o, mates, gone + {x, y}, p, m.Target(p)) {
      EndLeads(o, mates, gone, n, x, y, p);
      StepWire(n, x, y, m, p);
    }
    MakeContracted(o, mates, gone + {x, y}, m);
  }

  // ----------------------------------------------------------------------------- all runs

  /** Whatever is left, only mates face each other, and they are clean. */
  ghost predicate Safe(o: Net, mates: Match) {
    && Matching(o, mates)
    && forall gone, n, x, y :: Contracted(o, mates, gone, n) && Sound(n) && Pair(n, x, y) ==>
         x in mates && mates[x] == y && Clean(n, x, y)
  }

  lemma SafePair(o: Net, mates: Match, gone: set<AgentId>, n: Net, x: AgentId, y: AgentId)
    requires Safe(o, mates) && Contracted(o, mates, gone, n) && Sound(n) && Pair(n, x, y)
    ensures Next(o, mates, gone, n, x, y)
  {
    hide Contracted, Sound, Clean, Pair, Matching;
  }

  lemma EnabledPair(n: Net, s: Move)
    requires Enabled(n, s)
    ensures Pair(n, s.a, s.b)
  {}

  lemma MoveContracts(o: Net, mates: Match, gone: set<AgentId>, n: Net, s: Move)
    requires Safe(o, mates) && Contracted(o, mates, gone, n) && Sound(n) && AllocOk(n) && Enabled(n, s)
    ensures Contracted(o, mates, gone + {s.a, s.b}, Take(n, s)) && Sound(Take(n, s)) && AllocOk(Take(n, s))
    ensures |gone + {s.a, s.b}| == |gone| + 2 && Clean(n, s.a, s.b)
  {
    hide Safe, Contracted, Sound, AllocOk, Take, Clean, Reduced, Next, Enabled, Pair;
    EnabledPair(n, s);
    SafePair(o, mates, gone, n, s.a, s.b);
    AccessNext(o, mates, gone, n, s.a, s.b);
    var F := TakeIsStep(n, s);
    StepContracts(o, mates, gone, n, s.a, s.b, F, Take(n, s));
    assert gone !! {s.a, s.b};
    assert |{s.a, s.b}| == 2;
  }

  /** Every run contracts two agents for each interaction. */
  lemma {:induction false} RunContracts(o: Net, mates: Match, gone: set<AgentId>, n: Net, run: seq<Move>) returns (out: set<AgentId>)
    requires Safe(o, mates) && Contracted(o, mates, gone, n) && Sound(n) && AllocOk(n) && Legal(n, run)
    ensures Contracted(o, mates, out, After(n, run)) && Sound(After(n, run)) && AllocOk(After(n, run))
    ensures |out| == |gone| + 2 * |run|
    decreases |run|
  {
    hide Safe, Contracted, Sound, AllocOk, Take, Clean, Enabled;
    if run == [] {
      out := gone;
    } else {
      MoveContracts(o, mates, gone, n, run[0]);
      out := RunContracts(o, mates, gone + {run[0].a, run[0].b}, Take(n, run[0]), run[1..]);
    }
  }

  lemma SafeClear(o: Net, mates: Match)
    requires Safe(o, mates) && Sound(o) && AllocOk(o)
    ensures Clear(o)
  {
    hide Safe, Contracted, Sound, AllocOk, Legal, After, Clean, Next;
    ContractedStart(o, mates);
    forall run | Legal(o, run) ensures AllClean(After(o, run)) {
      var gone := RunContracts(o, mates, {}, o, run);
      forall a, b | Pair(After(o, run), a, b) ensures Clean(After(o, run), a, b) {
        SafePair(o, mates, gone, After(o, run), a, b);
        NextClean(o, mates, gone, After(o, run), a, b);
      }
    }
  }

  lemma NextClean(o: Net, mates: Match, gone: set<AgentId>, n: Net, x: AgentId, y: AgentId)
    requires Next(o, mates, gone, n, x, y)
    ensures Pair(n, x, y) && Clean(n, x, y)
  {}
}
