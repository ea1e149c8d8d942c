/** The net as an object that is reduced in place. */
module Reducer {
  import opened Nets
  import opened NetOps
  import opened Interaction
  import opened Rules
  import opened Engine

  datatype Rule = Annihilate | Commute | Erase | Vanish

  datatype StepResult = NormalForm | Reduced(rule: Rule)

  function RuleOf(s: Symbol, t: Symbol): Rule {
    if s == t then (if s.Era? then Vanish else Annihilate)
    else if s.Era? || t.Era? then Erase else Commute
  }

  datatype Stats = Stats(total: nat, annihilations: nat, commutations: nat, erasures: nat, vanishings: nat)
  {
    function Count(r: Rule): Stats {
      var t := this.(total := total + 1);
      match r
      case Annihilate => t.(annihilations := annihilations + 1)
      case Commute => t.(commutations := commutations + 1)
      case Erase => t.(erasures := erasures + 1)
      case Vanish => t.(vanishings := vanishings + 1)
    }

    predicate Balanced() {
      total == annihilations + commutations + erasures + vanishings
    }
  }

  /** `m` results from `n` by reducing its next pair; a clean one keeps the loop invariant. */
  ghost predicate OneStep(n: Net, m: Net) {
    && NextPair(n).Some?
    && var (a, b) := NextPair(n).value;
       && Pair(n, a, b) && (Clean(n, a, b) ==> Good(m))
       && exists rest :: m == Apply(n.(redexes := rest), a, b)
  }

  ghost predicate IsNormalForm(n: Net) {
    forall x, y :: !Faces(n, x, y)
  }

  class NetCell {
    var net: Net

    constructor (n: Net)
      ensures net == n
    {
      net := n;
    }

    method Connect(x: PortRef, y: PortRef)
      modifies this
      ensures net == NetOps.Connect(old(net), x, y)
    {
      net := SetPort(net, x, y);
      net := SetPort(net, y, x);
      if Principals(x, y) {
        net := net.(redexes := net.redexes + [(x.id, y.id)]);
      }
    }

    method Disconnect(p: PortRef)
      modifies this
      ensures net == NetOps.Disconnect(old(net), p)
    {
      var t := net.Target(p);
      if t != DISCONNECTED { net := SetPort(net, t, DISCONNECTED); }
      net := SetPort(net, p, DISCONNECTED);
    }

    method RemoveAgent(id: AgentId)
      modifies this
      ensures net == NetOps.RemoveAgent(old(net), id)
    {
      if id in net.agents {
        for p := 0 to TotalPorts(net.agents[id])
          invariant net == DisconnectAll(old(net), id, p)
        {
          Disconnect(AgentPort(id, p));
        }
        net := net.(agents := net.agents - {id}, freeList := net.freeList + [id]);
      }
    }

    method CreateAgent(s: Symbol) returns (id: AgentId)
      modifies this
      ensures id == NextFree(old(net)) && net == NetOps.CreateAgent(old(net), s)
    {
      if net.recycling && net.freeList != [] {
        id := net.freeList[|net.freeList| - 1];
        net := net.(freeList := net.freeList[..|net.freeList| - 1]);
        if net.arena <= id { net := net.(arena := id + 1); }
        net := net.(agents := net.agents[id := s],
                    ports := net.ports[AgentPort(id, 0) := DISCONNECTED][AgentPort(id, 1) := DISCONNECTED]
                                      [AgentPort(id, 2) := DISCONNECTED]);
      } else {
        id := net.nextId;
        net := net.(nextId := net.nextId + 1);
        if net.arena <= id { net := net.(arena := id + 1); }
        net := net.(agents := net.agents[id := s]);
      }
    }

    method Link(x: PortRef, y: PortRef)
      modifies this
      ensures net == Rules.Link(old(net), x, y)
    {
      if !(x.AgentPort? && x.id !in net.agents) && !(y.AgentPort? && y.id !in net.agents) {
        Connect(x, y);
      }
    }

    method RemoveBoth(a: AgentId, b: AgentId)
      modifies this
      ensures net == RemovePair(old(net), a, b)
    {
      RemoveAgent(a);
      RemoveAgent(b);
    }

    method InteractAnni(a: AgentId, b: AgentId)
      requires a in net.agents
      modifies this
      ensures net == Rules.InteractAnni(old(net), a, b)
    {
      hide RemovePair, Rules.Link;
      var s := net.agents[a];
      var a1, a2 := net.Target(AgentPort(a, 1)), net.Target(AgentPort(a, 2));
      var b1, b2 := net.Target(AgentPort(b, 1)), net.Target(AgentPort(b, 2));
      var loopA, loopB := Loop(net, a), Loop(net, b);
      RemoveBoth(a, b);
      if loopA && loopB {
      } else if loopB {
        Link(a1, a2);
      } else if loopA {
        Link(b1, b2);
      } else if s.Con? {
        Link(a1, b2);
        Link(a2, b1);
      } else {
        Link(a1, b1);
        Link(a2, b2);
      }
    }

    method InteractEras(a: AgentId, b: AgentId)
      modifies this
      ensures net == Rules.InteractEras(old(net), a, b)
    {
      hide RemovePair, Rules.Link, NetOps.CreateAgent, NextFree, Loop;
      var a1, a2 := net.Target(AgentPort(a, 1)), net.Target(AgentPort(a, 2));
      var loop := Loop(net, a);
      RemoveBoth(a, b);
      if !loop {
        ghost var m := net;
        var e1 := CreateAgent(Era);
        var e2 := CreateAgent(Era);
        CreateTwo(m, Era, Era);
        Link(AgentPort(e1, 0), a1);
        Link(AgentPort(e2, 0), a2);
      }
    }

    method CopyLoop(s: Symbol, x: PortRef, y: PortRef)
      modifies this
      ensures net == Rules.CopyLoop(old(net), s, x, y)
    {
      hide Rules.Link, NetOps.Connect, NetOps.CreateAgent, NextFree;
      CreateTwo(net, s, s);
      var p := CreateAgent(s);
      var q := CreateAgent(s);
      Connect(AgentPort(p, 1), AgentPort(p, 2));
      Connect(AgentPort(q, 1), AgentPort(q, 2));
      Link(AgentPort(p, 0), x);
      Link(AgentPort(q, 0), y);
    }

    method CommuteFour(a1: PortRef, a2: PortRef, b1: PortRef, b2: PortRef)
      modifies this
      ensures var (m, F) := Create(old(net), [Dup, Dup, Con, Con]);
              net == WireFour(LinkFour(m, F, a1, a2, b1, b2), F)
    {
      hide Rules.Link, NetOps.Connect, NetOps.CreateAgent, NextFree;
      CreateFour(net);
      var p := CreateAgent(Dup);
      var q := CreateAgent(Dup);
      var r := CreateAgent(Con);
      var s := CreateAgent(Con);
      Link(AgentPort(p, 0), a1);
      Link(AgentPort(q, 0), a2);
      Link(AgentPort(r, 0), b1);
      Link(AgentPort(s, 0), b2);
      Connect(AgentPort(p, 1), AgentPort(r, 1));
      Connect(AgentPort(p, 2), AgentPort(s, 1));
      Connect(AgentPort(q, 1), AgentPort(r, 2));
      Connect(AgentPort(q, 2), AgentPort(s, 2));
    }

    method InteractComm(a: AgentId, b: AgentId)
      modifies this
      ensures net == Rules.InteractComm(old(net), a, b)
    {
      hide RemovePair, Rules.CopyLoop, WireFour, LinkFour, Create, Loop;
      var a1, a2 := net.Target(AgentPort(a, 1)), net.Target(AgentPort(a, 2));
      var b1, b2 := net.Target(AgentPort(b, 1)), net.Target(AgentPort(b, 2));
      var loopA, loopB := Loop(net, a), Loop(net, b);
      RemoveBoth(a, b);
      if loopA && loopB {
      } else if loopA {
        CopyLoop(Con, b1, b2);
      } else if loopB {
        CopyLoop(Dup, a1, a2);
      } else {
        CommuteFour(a1, a2, b1, b2);
      }
    }

    /** Applies the rule for a valid pair, the smaller symbol first. */
    method Interact(x: AgentId, y: AgentId) returns (rule: Rule)
      requires Faces(net, x, y)
      modifies this
      ensures var (a, b) := Normalized(old(net), x, y);
        net == Apply(old(net), a, b) && rule == RuleOf(old(net).agents[a], old(net).agents[b])
    {
      hide Rules.InteractAnni, Rules.InteractEras, Rules.InteractComm, RemovePair;
      var (a, b) := Normalized(net, x, y);
      rule := RuleOf(net.agents[a], net.agents[b]);
      match rule {
        case Annihilate => InteractAnni(a, b);
        case Commute => InteractComm(a, b);
        case Erase => InteractEras(a, b);
        case Vanish => RemoveBoth(a, b);
      }
    }

    /** Drops stale entries and reduces the first valid pair of the queue. */
    method ReduceStep() returns (r: StepResult)
      modifies this
      ensures (net, r) == Advance(old(net))
    {
      hide Apply;
      while net.redexes != []
        invariant Advance(old(net)) == Advance(net)
        decreases |net.redexes|
      {
        var (x, y) := net.redexes[0];
        net := net.(redexes := net.redexes[1..]);
        if Faces(net, x, y) {
          var rule := Interact(x, y);
          return Reduced(rule);
        }
      }
      return NormalForm;
    }

    /** Reduces at most `budget` pairs and counts them by rule. */
    method ReduceN(budget: nat) returns (stats: Stats)
      modifies this
      ensures (net, stats) == AdvanceN(old(net), Stats(0, 0, 0, 0, 0), budget)
    {
      hide Advance;
      stats := Stats(0, 0, 0, 0, 0);
      while stats.total < budget
        invariant AdvanceN(old(net), Stats(0, 0, 0, 0, 0), budget) == AdvanceN(net, stats, budget)
        decreases budget - stats.total
      {
        var r := ReduceStep();
        if r.NormalForm? { return; }
        stats := stats.Count(r.rule);
      }
    }
  }

  /** The queue up to its first valid pair is dropped and that pair is reduced. */
  ghost function Advance(n: Net): (Net, StepResult)
    decreases |n.redexes|
  {
    if n.redexes == [] then (n, NormalForm)
    else
      var ((x, y), m) := (n.redexes[0], n.(redexes := n.redexes[1..]));
      if Faces(m, x, y) then
        var (a, b) := Normalized(m, x, y);
        (Apply(m, a, b), Reduced(RuleOf(m.agents[a], m.agents[b])))
      else Advance(m)
  }

  ghost function AdvanceN(n: Net, stats: Stats, budget: nat): (Net, Stats)
    decreases budget - stats.total
  {
    if stats.total >= budget then (n, stats)
    else
      var (m, r) := Advance(n);
      match r
      case NormalForm => (m, stats)
      case Reduced(rule) => AdvanceN(m, stats.Count(rule), budget)
  }

  /** Under the invariant, a step reports a normal form exactly if no two agents face
      each other, and otherwise reduces an active pair. */
  lemma {:induction false} AdvanceGood(n: Net)
    requires Good(n)
    ensures var (m, r) := Advance(n);
      && (r.NormalForm? <==> IsNormalForm(n))
      && (r.NormalForm? ==> Good(m) && IsNormalForm(m) && m == n.(redexes := []))
      && (r.Reduced? ==> OneStep(n, m))
    decreases |n.redexes|
  {
    hide Good, Apply, IsNormalForm;
    if n.redexes == [] {
      EmptyQueue(n);
    } else {
      var ((x, y), m) := (n.redexes[0], n.(redexes := n.redexes[1..]));
      if Faces(m, x, y) {
        StepTaken(n, m, x, y, Advance(n).0);
        SomePair(n, x, y);
      } else {
        PopStale(n, x, y);
        AdvanceGood(m);
        SameNormal(n, m);
        if Advance(m).1.Reduced? { OneStepFrom(n, m, Advance(m).0); }
      }
    }
  }

  lemma SomePair(n: Net, x: AgentId, y: AgentId)
    requires Faces(n, x, y)
    ensures !IsNormalForm(n)
  {}

  lemma SameNormal(n: Net, m: Net)
    requires m == n.(redexes := m.redexes)
    ensures IsNormalForm(m) <==> IsNormalForm(n)
  {
    assert forall x, y :: Faces(m, x, y) <==> Faces(n, x, y);
  }

  lemma OneStepFrom(n: Net, m: Net, r: Net)
    requires m == n.(redexes := m.redexes) && NextPair(n) == NextPair(m) && OneStep(m, r)
    ensures OneStep(n, r)
  {
    hide Apply, Good;
    var (a, b) := NextPair(m).value;
    var rest :| r == Apply(m.(redexes := rest), a, b);
    assert m.(redexes := rest) == n.(redexes := rest);
    SamePair(n, m, a, b);
  }

  /** The queue plays no part in what a clean pair is. */
  lemma SamePair(n: Net, m: Net, a: AgentId, b: AgentId)
    requires m == n.(redexes := m.redexes)
    ensures Pair(m, a, b) <==> Pair(n, a, b)
    ensures Pair(n, a, b) ==> (Clean(m, a, b) <==> Clean(n, a, b))
  {
    assert forall p :: m.Target(p) == n.Target(p);
  }

  /** The first valid pair of the queue, the smaller symbol first. */
  ghost function NextPair(n: Net): Option<(AgentId, AgentId)>
    decreases |n.redexes|
  {
    if n.redexes == [] then None
    else
      var ((x, y), m) := (n.redexes[0], n.(redexes := n.redexes[1..]));
      if Faces(m, x, y) then Some(Normalized(m, x, y)) else NextPair(m)
  }

  /** The entry at `k` is the first whose agents face each other. */
  ghost predicate FirstValid(n: Net, k: nat) {
    && k < |n.redexes| && Faces(n, n.redexes[k].0, n.redexes[k].1)
    && forall i :: 0 <= i < k ==> !Faces(n, n.redexes[i].0, n.redexes[i].1)
  }

  /** The step takes that entry and drops all before it; without one it empties the queue. */
  lemma {:induction false} StepTakesFirst(n: Net, k: nat)
    ensures FirstValid(n, k) ==>
      var m, (x, y) := n.(redexes := n.redexes[k + 1..]), n.redexes[k];
      var (a, b) := if Rank(n.agents[x]) <= Rank(n.agents[y]) then (x, y) else (y, x);
      Advance(n).0 == Apply(m, a, b)
    ensures (forall i :: 0 <= i < |n.redexes| ==> !Faces(n, n.redexes[i].0, n.redexes[i].1)) ==>
      Advance(n) == (n.(redexes := []), NormalForm)
    decreases |n.redexes|
  {
    hide Apply;
    if n.redexes != [] {
      var m := n.(redexes := n.redexes[1..]);
      assert forall x, y :: Faces(m, x, y) <==> Faces(n, x, y);
      assert forall i :: 0 <= i < |m.redexes| ==> m.redexes[i] == n.redexes[i + 1];
      if k > 0 && FirstValid(n, k) {
        assert m.redexes[k..] == n.redexes[k + 1..];
        StepTakesFirst(m, k - 1);
      } else if !FirstValid(n, k) {
        StepTakesFirst(m, 0);
      }
    }
  }

  lemma {:induction false} NextPairAdvances(n: Net)
    ensures NextPair(n).Some? <==> Advance(n).1.Reduced?
    decreases |n.redexes|
  {
    hide Apply;
    if n.redexes != [] { NextPairAdvances(n.(redexes := n.redexes[1..])); }
  }

  /** Every pair met in the next `budget` steps is clean when it is reduced. */
  ghost predicate CleanRun(n: Net, budget: nat)
    decreases budget
  {
    budget > 0 && NextPair(n).Some? ==>
      && (var (a, b) := NextPair(n).value; Pair(n, a, b) && Clean(n, a, b))
      && CleanRun(Advance(n).0, budget - 1)
  }

  /** The counts add up and respect the budget; a run that stops early has emptied its
      queue. If every pair met was clean, the invariant holds at the end, and a run that
      stopped early has reached a normal form. */
  lemma {:induction false} AdvanceNDone(n: Net, stats: Stats, budget: nat)
    requires stats.Balanced() && stats.total <= budget
    ensures var (m, s) := AdvanceN(n, stats, budget);
      && s.Balanced() && stats.total <= s.total <= budget
      && (s.total < budget ==> m.redexes == [])
      && (Good(n) && CleanRun(n, budget - stats.total) ==> Good(m) && (s.total < budget ==> IsNormalForm(m)))
    decreases budget - stats.total
  {
    hide Good, Apply, IsNormalForm, Advance, Clean, Pair, NextPair;
    if stats.total < budget {
      var (m, r) := Advance(n);
      AdvanceEmpties(n);
      NextPairAdvances(n);
      if Good(n) { AdvanceGood(n); }
      match r
      case NormalForm =>
      case Reduced(rule) => AdvanceNDone(m, stats.Count(rule), budget);
    }
  }

  lemma {:induction false} AdvanceEmpties(n: Net)
    ensures Advance(n).1.NormalForm? ==> Advance(n).0 == n.(redexes := [])
    decreases |n.redexes|
  {
    hide Apply;
    if n.redexes != [] { AdvanceEmpties(n.(redexes := n.redexes[1..])); }
  }

  lemma StepTaken(n: Net, m: Net, x: AgentId, y: AgentId, r: Net)
    requires Good(n) && n.redexes != [] && n.redexes[0] == (x, y)
    requires m == n.(redexes := n.redexes[1..]) && Faces(m, x, y)
    requires var (a, b) := Normalized(m, x, y); r == Apply(m, a, b)
    ensures OneStep(n, r)
  {
    assert Faces(n, x, y);
    PopValid(n, x, y);
    var (a, b) := Normalized(m, x, y);
    FacesIsPair(m, x, y);
    if Clean(m, a, b) { ApplyGood(m, a, b); }
    SamePair(n, m, a, b);
    hide Good, Apply, Clean;
    assert m == n.(redexes := m.redexes);
  }

  /** The agents of a pair with the smaller symbol first. */
  function Normalized(n: Net, x: AgentId, y: AgentId): (AgentId, AgentId)
    requires x in n.agents && y in n.agents
  {
    if Rank(n.agents[x]) <= Rank(n.agents[y]) then (x, y) else (y, x)
  }

  lemma FacesIsPair(n: Net, x: AgentId, y: AgentId)
    requires Sound(n) && Faces(n, x, y)
    ensures var (a, b) := Normalized(n, x, y); Pair(n, a, b)
  {
    assert n.IsPort(AgentPort(x, 0));
  }

  lemma CreateMore(m: Net, ss: seq<Symbol>, s: Symbol)
    ensures Create(m, ss + [s]) == (NetOps.CreateAgent(Create(m, ss).0, s), Create(m, ss).1 + [NextFree(Create(m, ss).0)])
  {
    hide NetOps.CreateAgent, NextFree;
    assert (ss + [s])[..|ss + [s]| - 1] == ss;
  }

  lemma CreateTwo(m: Net, s: Symbol, t: Symbol)
    ensures var m1 := NetOps.CreateAgent(m, s);
            Create(m, [s, t]) == (NetOps.CreateAgent(m1, t), [NextFree(m), NextFree(m1)])
  {
    CreateMore(m, [], s);
    CreateMore(m, [s], t);
    hide NetOps.CreateAgent, NextFree;
    var m1 := NetOps.CreateAgent(m, s);
    assert [] + [s] == [s] && [s] + [t] == [s, t];
    assert Create(m, []).0 == m && Create(m, []).1 == [];
    assert [] + [NextFree(m)] == [NextFree(m)];
    assert Create(m, [s]) == (m1, [NextFree(m)]);
    assert [NextFree(m)] + [NextFree(m1)] == [NextFree(m), NextFree(m1)];
  }

  lemma CreateFour(m: Net)
    ensures var m1 := NetOps.CreateAgent(m, Dup);
            var m2 := NetOps.CreateAgent(m1, Dup);
            var m3 := NetOps.CreateAgent(m2, Con);
            Create(m, [Dup, Dup, Con, Con])
              == (NetOps.CreateAgent(m3, Con), [NextFree(m), NextFree(m1), NextFree(m2), NextFree(m3)])
  {
    CreateTwo(m, Dup, Dup);
    CreateMore(m, [Dup, Dup], Con);
    CreateMore(m, [Dup, Dup, Con], Con);
    hide NetOps.CreateAgent, NextFree, Create;
    var m1 := NetOps.CreateAgent(m, Dup);
    var m2 := NetOps.CreateAgent(m1, Dup);
    var m3 := NetOps.CreateAgent(m2, Con);
    assert [Dup, Dup] + [Con] == [Dup, Dup, Con] && [Dup, Dup, Con] + [Con] == [Dup, Dup, Con, Con];
    assert Create(m, [Dup, Dup, Con]) == (m3, [NextFree(m), NextFree(m1)] + [NextFree(m2)]);
    assert [NextFree(m), NextFree(m1)] + [NextFree(m2)] + [NextFree(m3)] == [NextFree(m), NextFree(m1), NextFree(m2), NextFree(m3)];
  }

  /** Dropping a stale entry keeps the queue complete. */
  lemma PopStale(n: Net, x: AgentId, y: AgentId)
    requires Good(n) && n.redexes != [] && n.redexes[0] == (x, y) && !Faces(n, x, y)
    ensures Good(n.(redexes := n.redexes[1..]))
  {
    var m := n.(redexes := n.redexes[1..]);
    SameWires(n, m);
    forall u, v | Faces(m, u, v) ensures Queued(m, u, v) {
      assert n.IsPort(AgentPort(u, 0)) && Faces(n, v, u);
      assert n.redexes == [n.redexes[0]] + n.redexes[1..];
    }
  }

  /** The pair that is taken out of the queue is the only one not covered. */
  lemma PopValid(n: Net, x: AgentId, y: AgentId)
    requires Good(n) && n.redexes != [] && n.redexes[0] == (x, y) && Faces(n, x, y)
    ensures var m := n.(redexes := n.redexes[1..]); var (a, b) := Normalized(m, x, y);
      Sound(m) && AllocOk(m) && DeadPrincipals(m) && CoveredExcept(m, a, b)
  {
    var m := n.(redexes := n.redexes[1..]);
    SameWires(n, m);
    forall u: AgentId, v: AgentId | Faces(m, u, v) && {u, v} != {x, y} ensures Queued(m, u, v) {
      assert n.redexes == [n.redexes[0]] + n.redexes[1..];
    }
  }

  lemma SameWires(n: Net, m: Net)
    requires Good(n) && m == n.(redexes := m.redexes)
    ensures Sound(m) && AllocOk(m) && DeadPrincipals(m) && forall x, y :: Faces(m, x, y) <==> Faces(n, x, y)
  {
    assert forall p :: m.Target(p) == n.Target(p);
    assert forall p :: m.IsPort(p) <==> n.IsPort(p);
  }

  lemma EmptyQueue(n: Net)
    requires Good(n) && n.redexes == []
    ensures IsNormalForm(n)
  {}
}
