/** The reduction loop: a queue of candidate pairs, some of them stale. */
module Engine {
  import opened Nets
  import opened NetOps
  import opened Interaction
  import opened Rules

  /** The validity test for a queued pair. */
  predicate Faces(n: Net, x: AgentId, y: AgentId) {
    x in n.agents && y in n.agents && n.Target(AgentPort(x, 0)) == AgentPort(y, 0)
  }

  predicate Queued(n: Net, x: AgentId, y: AgentId) {
    (x, y) in n.redexes || (y, x) in n.redexes
  }

  /** Every active pair of the net is in the queue. */
  ghost predicate Covered(n: Net) {
    forall x, y :: Faces(n, x, y) ==> Queued(n, x, y)
  }

  ghost predicate CoveredExcept(n: Net, a: AgentId, b: AgentId) {
    forall x: AgentId, y: AgentId :: Faces(n, x, y) && {x, y} != {a, b} ==> Queued(n, x, y)
  }

  /** The principal slots of dead agents hold no wire. */
  ghost predicate DeadPrincipals(n: Net) {
    forall x :: x !in n.agents ==> n.Target(AgentPort(x, 0)) == DISCONNECTED
  }

  /** The invariant of the reduction loop. */
  ghost predicate Good(n: Net) {
    Sound(n) && AllocOk(n) && DeadPrincipals(n) && Covered(n)
  }

  // --------------------------------------------------- the operations keep the queue complete

  lemma ConnectCovered(n: Net, x: PortRef, y: PortRef)
    requires Covered(n) && DeadPrincipals(n)
    requires (x.AgentPort? ==> x.id in n.agents) && (y.AgentPort? ==> y.id in n.agents)
    ensures Covered(Connect(n, x, y)) && DeadPrincipals(Connect(n, x, y))
  {
    var m := Connect(n, x, y);
    forall u, v | Faces(m, u, v) ensures Queued(m, u, v) {
      ConnectTarget(n, x, y, AgentPort(u, 0));
      if (AgentPort(u, 0) == x && AgentPort(v, 0) == y) || (AgentPort(u, 0) == y && AgentPort(v, 0) == x) {
        assert m.redexes == n.redexes + [(x.id, y.id)];
        assert (x.id, y.id) in m.redexes;
      } else {
        assert Faces(n, u, v);
        assert forall e :: e in n.redexes ==> e in m.redexes;
      }
    }
    forall u | u !in m.agents ensures m.Target(AgentPort(u, 0)) == DISCONNECTED {
      ConnectTarget(n, x, y, AgentPort(u, 0));
    }
  }

  lemma LinkCovered(n: Net, x: PortRef, y: PortRef)
    requires Covered(n) && DeadPrincipals(n)
    ensures Covered(Link(n, x, y)) && DeadPrincipals(Link(n, x, y))
  {
    if !Gone(n, x) && !Gone(n, y) { ConnectCovered(n, x, y); }
  }

  lemma CreateCovered(n: Net, s: Symbol)
    requires Covered(n) && DeadPrincipals(n) && AllocOk(n)
    requires forall x :: x in n.agents ==> n.Target(AgentPort(x, 0)) != AgentPort(NextFree(n), 0)
    ensures Covered(CreateAgent(n, s)) && DeadPrincipals(CreateAgent(n, s))
  {
    var m := CreateAgent(n, s);
    CreateAlloc(n, s);
    forall u, v | Faces(m, u, v) ensures Queued(m, u, v) {
      CreateTarget(n, s, AgentPort(u, 0));
      assert u != NextFree(n);
      assert Faces(n, u, v);
    }
    forall u | u !in m.agents ensures m.Target(AgentPort(u, 0)) == DISCONNECTED {
      CreateTarget(n, s, AgentPort(u, 0));
    }
  }

  /** No live principal port points at a dead agent. */
  ghost predicate NoneToDead(n: Net) {
    forall x, y :: x in n.agents && n.Target(AgentPort(x, 0)) == AgentPort(y, 0) ==> y in n.agents
  }

  lemma {:induction false} CreateAllCovered(n: Net, ss: seq<Symbol>)
    requires Covered(n) && DeadPrincipals(n) && AllocOk(n) && NoneToDead(n)
    ensures var m := Create(n, ss).0; Covered(m) && DeadPrincipals(m) && AllocOk(m) && NoneToDead(m)
  {
    if ss != [] {
      CreateAllCovered(n, ss[..|ss| - 1]);
      var m := Create(n, ss[..|ss| - 1]).0;
      CreateAlloc(m, ss[|ss| - 1]);
      CreateCovered(m, ss[|ss| - 1]);
      CreateNoneToDead(m, ss[|ss| - 1]);
    }
  }

  lemma CreateNoneToDead(n: Net, s: Symbol)
    requires DeadPrincipals(n) && AllocOk(n) && NoneToDead(n)
    ensures NoneToDead(CreateAgent(n, s))
  {
    var m := CreateAgent(n, s);
    CreateAlloc(n, s);
    forall x, y | x in m.agents && m.Target(AgentPort(x, 0)) == AgentPort(y, 0) ensures y in m.agents {
      CreateTarget(n, s, AgentPort(x, 0));
    }
  }

  /** Removing a pair that faces each other uncovers nothing. */
  lemma RemovePairCovered(n: Net, a: AgentId, b: AgentId)
    requires Sound(n) && AllocOk(n) && DeadPrincipals(n) && Pair(n, a, b) && CoveredExcept(n, a, b)
    ensures var m := RemovePair(n, a, b); Covered(m) && DeadPrincipals(m) && AllocOk(m) && NoneToDead(m)
  {
    RemovePairFacts(n, a, b);
    var m := RemovePair(n, a, b);
    forall x, y | Faces(m, x, y) ensures Queued(m, x, y) {
      assert n.IsPort(AgentPort(x, 0)) && Survives(n, a, b, x);
      RemovePairTarget(n, a, b, AgentPort(x, 0));
      assert Faces(n, x, y);
    }
    forall x | x !in m.agents ensures m.Target(AgentPort(x, 0)) == DISCONNECTED {
      DeadAfterRemoval(n, a, b, x);
    }
    forall x, y | x in m.agents && m.Target(AgentPort(x, 0)) == AgentPort(y, 0) ensures y in m.agents {
      assert m.IsPort(AgentPort(x, 0));
    }
  }

  lemma DeadAfterRemoval(n: Net, a: AgentId, b: AgentId, x: AgentId)
    requires Sound(n) && AllocOk(n) && DeadPrincipals(n) && Pair(n, a, b) && !Survives(n, a, b, x)
    ensures RemovePair(n, a, b).Target(AgentPort(x, 0)) == DISCONNECTED
  {
    var m := RemoveAgent(n, a);
    RemoveAgentSound(n, a);
    DisconnectAllTarget(n, a, TotalPorts(n.agents[a]), AgentPort(x, 0));
    DisconnectAllTarget(m, b, TotalPorts(m.agents[b]), AgentPort(x, 0));
    hide DisconnectAll;
  }

  ghost predicate Tracked(n: Net) {
    Covered(n) && DeadPrincipals(n)
  }

  lemma WireFourTracked(m: Net, F: seq<AgentId>)
    requires Tracked(m) && |F| == 4 && F[0] in m.agents && F[1] in m.agents && F[2] in m.agents && F[3] in m.agents
    ensures Tracked(WireFour(m, F))
  {
    var p, q, r, s := F[0], F[1], F[2], F[3];
    var m1 := Connect(m, AgentPort(p, 1), AgentPort(r, 1));
    var m2 := Connect(m1, AgentPort(p, 2), AgentPort(s, 1));
    var m3 := Connect(m2, AgentPort(q, 1), AgentPort(r, 2));
    hide Connect, Covered, DeadPrincipals;
    ConnectCovered(m, AgentPort(p, 1), AgentPort(r, 1));
    ConnectCovered(m1, AgentPort(p, 2), AgentPort(s, 1));
    ConnectCovered(m2, AgentPort(q, 1), AgentPort(r, 2));
    ConnectCovered(m3, AgentPort(q, 2), AgentPort(s, 2));
  }

  lemma LinkFourTracked(m: Net, F: seq<AgentId>, a1: PortRef, a2: PortRef, b1: PortRef, b2: PortRef)
    requires Tracked(m) && |F| == 4
    ensures Tracked(LinkFour(m, F, a1, a2, b1, b2))
  {
    var m1 := Link(m, AgentPort(F[0], 0), a1);
    var m2 := Link(m1, AgentPort(F[1], 0), a2);
    var m3 := Link(m2, AgentPort(F[2], 0), b1);
    hide Link, Covered, DeadPrincipals;
    LinkCovered(m, AgentPort(F[0], 0), a1);
    LinkCovered(m1, AgentPort(F[1], 0), a2);
    LinkCovered(m2, AgentPort(F[2], 0), b1);
    LinkCovered(m3, AgentPort(F[3], 0), b2);
  }

  lemma TwoLinksTracked(m: Net, w: PortRef, x: PortRef, y: PortRef, z: PortRef)
    requires Tracked(m)
    ensures Tracked(Link(Link(m, w, x), y, z))
  {
    hide Link, Covered, DeadPrincipals;
    LinkCovered(m, w, x);
    LinkCovered(Link(m, w, x), y, z);
  }

  lemma AnniTracked(n: Net, a: AgentId, b: AgentId)
    requires Sound(n) && AllocOk(n) && DeadPrincipals(n) && Pair(n, a, b) && CoveredExcept(n, a, b)
    ensures Tracked(InteractAnni(n, a, b))
  {
    RemovePairCovered(n, a, b);
    var m := RemovePair(n, a, b);
    var a1, a2 := n.Target(AgentPort(a, 1)), n.Target(AgentPort(a, 2));
    var b1, b2 := n.Target(AgentPort(b, 1)), n.Target(AgentPort(b, 2));
    hide Link, RemovePair, Covered, DeadPrincipals, CoveredExcept, Sound, AllocOk, Loop;
    LinkCovered(m, a1, a2);
    LinkCovered(m, b1, b2);
    TwoLinksTracked(m, a1, b2, a2, b1);
    TwoLinksTracked(m, a1, b1, a2, b2);
  }

  lemma ErasTracked(n: Net, a: AgentId, b: AgentId)
    requires Sound(n) && AllocOk(n) && DeadPrincipals(n) && Pair(n, a, b) && CoveredExcept(n, a, b)
    ensures Tracked(InteractEras(n, a, b))
  {
    RemovePairCovered(n, a, b);
    var m := RemovePair(n, a, b);
    hide Link, RemovePair, Covered, DeadPrincipals, CoveredExcept, Sound, AllocOk, Loop, Create, NoneToDead;
    CreateAllCovered(m, [Era, Era]);
    var (m2, F) := Create(m, [Era, Era]);
    TwoLinksTracked(m2, AgentPort(F[0], 0), n.Target(AgentPort(a, 1)), AgentPort(F[1], 0), n.Target(AgentPort(a, 2)));
  }

  lemma CopyLoopTracked(m: Net, s: Symbol, x: PortRef, y: PortRef)
    requires Covered(m) && DeadPrincipals(m) && AllocOk(m) && NoneToDead(m)
    ensures Tracked(CopyLoop(m, s, x, y))
  {
    CreateAllCovered(m, [s, s]);
    CreateFacts(m, [s, s]);
    var (m2, F) := Create(m, [s, s]);
    assert F[0] in m2.agents && F[1] in m2.agents;
    hide Link, Connect, Covered, DeadPrincipals, AllocOk, NoneToDead, Create, Created;
    var m3 := Connect(m2, AgentPort(F[0], 1), AgentPort(F[0], 2));
    ConnectCovered(m2, AgentPort(F[0], 1), AgentPort(F[0], 2));
    ConnectCovered(m3, AgentPort(F[1], 1), AgentPort(F[1], 2));
    TwoLinksTracked(Connect(m3, AgentPort(F[1], 1), AgentPort(F[1], 2)), AgentPort(F[0], 0), x, AgentPort(F[1], 0), y);
  }

  lemma CommTracked(n: Net, a: AgentId, b: AgentId)
    requires Sound(n) && AllocOk(n) && DeadPrincipals(n) && Pair(n, a, b) && CoveredExcept(n, a, b)
    ensures Tracked(InteractComm(n, a, b))
  {
    RemovePairCovered(n, a, b);
    var m := RemovePair(n, a, b);
    var a1, a2 := n.Target(AgentPort(a, 1)), n.Target(AgentPort(a, 2));
    var b1, b2 := n.Target(AgentPort(b, 1)), n.Target(AgentPort(b, 2));
    assert Tracked(m);
    hide RemovePair, Covered, DeadPrincipals, CoveredExcept, Sound, AllocOk, Loop, Create, NoneToDead, CopyLoop, LinkFour, WireFour, Tracked, Net.Target, Pair;
    if Loop(n, a) && !Loop(n, b) {
      CopyLoopTracked(m, Con, b1, b2);
    } else if Loop(n, b) && !Loop(n, a) {
      CopyLoopTracked(m, Dup, a1, a2);
    } else if !Loop(n, a) {
      CommFourTracked(m, a1, a2, b1, b2);
    }
  }

  lemma CommFourTracked(m: Net, a1: PortRef, a2: PortRef, b1: PortRef, b2: PortRef)
    requires Covered(m) && DeadPrincipals(m) && AllocOk(m) && NoneToDead(m)
    ensures var (m4, F) := Create(m, [Dup, Dup, Con, Con]); Tracked(WireFour(LinkFour(m4, F, a1, a2, b1, b2), F))
  {
    CreateAllCovered(m, [Dup, Dup, Con, Con]);
    CreateFacts(m, [Dup, Dup, Con, Con]);
    var (m4, F) := Create(m, [Dup, Dup, Con, Con]);
    assert F[0] in m4.agents && F[1] in m4.agents && F[2] in m4.agents && F[3] in m4.agents;
    hide Created, Create, LinkFour, WireFour, Covered, DeadPrincipals, AllocOk, NoneToDead;
    LinkFourTracked(m4, F, a1, a2, b1, b2);
    WireFourTracked(LinkFour(m4, F, a1, a2, b1, b2), F);
  }

  /** No rule loses track of an active pair. */
  lemma ApplyTracked(n: Net, a: AgentId, b: AgentId)
    requires Sound(n) && AllocOk(n) && DeadPrincipals(n) && Pair(n, a, b) && CoveredExcept(n, a, b)
    ensures Tracked(Apply(n, a, b))
  {
    RemovePairCovered(n, a, b);
    AnniTracked(n, a, b);
    ErasTracked(n, a, b);
    CommTracked(n, a, b);
    hide Tracked, InteractAnni, InteractEras, InteractComm, RemovePair, Covered, DeadPrincipals, Sound, AllocOk;
    assert Tracked(InteractVoid(n, a, b)) by { RemovePairCovered(n, a, b); TrackedVoid(n, a, b); }
  }

  lemma TrackedVoid(n: Net, a: AgentId, b: AgentId)
    requires Covered(RemovePair(n, a, b)) && DeadPrincipals(RemovePair(n, a, b))
    ensures Tracked(InteractVoid(n, a, b))
  {}

  /** A clean step keeps the whole invariant. */
  lemma ApplyGood(n: Net, a: AgentId, b: AgentId)
    requires Sound(n) && AllocOk(n) && DeadPrincipals(n) && Pair(n, a, b) && CoveredExcept(n, a, b) && Clean(n, a, b)
    ensures Good(Apply(n, a, b))
  {
    ApplyTracked(n, a, b);
    var F := ApplyIsStep(n, a, b);
    ReducedSound(n, a, b, F, Apply(n, a, b));
    hide Apply, Sound, AllocOk;
  }
}
