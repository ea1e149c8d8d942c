/** A net on which the order decides the number of interactions but not the normal form. */
module DrainedLoop {
  import opened Nets
  import opened NetOps
  import opened NetIsomorphism
  import opened Interaction
  import opened Confluence
  import opened Engine
  import opened Runs
  import opened NormalForms
  import opened WireSteps
  import opened EraserNets
  import Transport
  import R = Reducer

  /** Two constructors face each other, and through them run the two auxiliary wires of the
      duplicator 3; the constructor it faces has an eraser on each auxiliary port. */
  const DRAINED_LOOP: Net :=
    Net(map[0 := Con, 1 := Con, 2 := Con, 3 := Dup, 4 := Era, 5 := Era],
        map[AgentPort(0, 0) := AgentPort(1, 0), AgentPort(1, 0) := AgentPort(0, 0),
            AgentPort(2, 0) := AgentPort(3, 0), AgentPort(3, 0) := AgentPort(2, 0),
            AgentPort(3, 1) := AgentPort(0, 1), AgentPort(0, 1) := AgentPort(3, 1),
            AgentPort(3, 2) := AgentPort(1, 2), AgentPort(1, 2) := AgentPort(3, 2),
            AgentPort(0, 2) := FreePort(1), AgentPort(1, 1) := FreePort(2),
            AgentPort(2, 1) := AgentPort(4, 0), AgentPort(4, 0) := AgentPort(2, 1),
            AgentPort(2, 2) := AgentPort(5, 0), AgentPort(5, 0) := AgentPort(2, 2)],
        6, 6, [(0, 1), (2, 3)], None, [], true)

  ghost predicate Start(n: Net) {
    && n.agents == map[0 := Con, 1 := Con, 2 := Con, 3 := Dup, 4 := Era, 5 := Era]
    && Joined(n, AgentPort(0, 0), AgentPort(1, 0)) && Joined(n, AgentPort(2, 0), AgentPort(3, 0))
    && Joined(n, AgentPort(3, 1), AgentPort(0, 1)) && Joined(n, AgentPort(3, 2), AgentPort(1, 2))
    && OnLabel(n, AgentPort(0, 2), 1) && OnLabel(n, AgentPort(1, 1), 2)
    && Joined(n, AgentPort(2, 1), AgentPort(4, 0)) && Joined(n, AgentPort(2, 2), AgentPort(5, 0))
  }

  lemma DrainedUpper()
    ensures var n := DRAINED_LOOP;
      && Joined(n, AgentPort(0, 0), AgentPort(1, 0)) && Joined(n, AgentPort(2, 0), AgentPort(3, 0))
      && Joined(n, AgentPort(3, 1), AgentPort(0, 1)) && Joined(n, AgentPort(3, 2), AgentPort(1, 2))
  {}

  lemma DrainedLower()
    ensures var n := DRAINED_LOOP;
      && OnLabel(n, AgentPort(0, 2), 1) && OnLabel(n, AgentPort(1, 1), 2)
      && Joined(n, AgentPort(2, 1), AgentPort(4, 0)) && Joined(n, AgentPort(2, 2), AgentPort(5, 0))
  {}

  lemma DrainedStarts()
    ensures Start(DRAINED_LOOP)
  {
    hide Joined, OnLabel;
    DrainedUpper();
    DrainedLower();
  }

  lemma DrainedAlloc()
    ensures AllocOk(DRAINED_LOOP) && DRAINED_LOOP.arena == 6
  {}

  lemma StartSound(n: Net)
    requires Start(n) && n.arena == 6
    ensures Sound(n)
  {
    forall p | n.IsPort(p)
      ensures n.Target(p) != p && (n.Target(p).AgentPort? ==> n.IsPort(n.Target(p)) && n.Target(n.Target(p)) == p)
    {
      assert p == AgentPort(p.id, p.port);
    }
  }

  lemma StartPairs(n: Net)
    requires Start(n)
    ensures Pair(n, 0, 1) && Pair(n, 1, 0) && Pair(n, 2, 3) && TwoPairs(n, 0, 1, 2, 3) && Diverging(n, 0, 1, 2, 3)
    ensures Clean(n, 0, 1) && Clean(n, 1, 0) && Clean(n, 2, 3)
  {}

  lemma StartOnly(n: Net, a: AgentId, b: AgentId)
    requires Start(n) && Pair(n, a, b)
    ensures (a == 0 && b == 1) || (a == 1 && b == 0) || (a == 2 && b == 3)
  {}

  // -------------------------------------------------------------- the annihilation first

  ghost predicate Fast0(n: Net) {
    && n.agents == map[2 := Con, 3 := Dup, 4 := Era, 5 := Era]
    && Joined(n, AgentPort(2, 0), AgentPort(3, 0)) && Joined(n, AgentPort(3, 1), AgentPort(3, 2))
    && Joined(n, AgentPort(2, 1), AgentPort(4, 0)) && Joined(n, AgentPort(2, 2), AgentPort(5, 0))
  }

  ghost predicate Fast1(n: Net, g: AgentId, h: AgentId) {
    && g != h && g !in {4, 5} && h !in {4, 5}
    && n.agents == map[g := Dup, h := Dup, 4 := Era, 5 := Era]
    && Joined(n, AgentPort(g, 0), AgentPort(4, 0)) && Joined(n, AgentPort(h, 0), AgentPort(5, 0))
    && Joined(n, AgentPort(g, 1), AgentPort(g, 2)) && Joined(n, AgentPort(h, 1), AgentPort(h, 2))
  }

  ghost predicate Fast2(n: Net, h: AgentId) {
    && h != 5 && n.agents == map[h := Dup, 5 := Era]
    && Joined(n, AgentPort(h, 0), AgentPort(5, 0)) && Joined(n, AgentPort(h, 1), AgentPort(h, 2))
  }

  lemma ToFast0(n: Net, F: seq<AgentId>, m: Net)
    requires Start(n) && Pair(n, 0, 1) && Reduced(n, 0, 1, F, m)
    ensures Fast0(m)
  {
    AgentsAfter(n, 0, 1, F, m);
    hide Reduced;
    Stays(n, 0, 1, F, m, AgentPort(2, 0), AgentPort(3, 0));
    Joins(n, 0, 1, F, m, AgentPort(3, 1), AgentPort(0, 1), AgentPort(1, 2), AgentPort(3, 2));
    Stays(n, 0, 1, F, m, AgentPort(2, 1), AgentPort(4, 0));
    Stays(n, 0, 1, F, m, AgentPort(2, 2), AgentPort(5, 0));
  }

  lemma Fast0Shape(n: Net)
    requires Fast0(n)
    ensures Pair(n, 2, 3) && Clean(n, 2, 3) && Born(n, 2, 3) == [Dup, Dup]
    ensures Source(n, 2, 3, 0) == AgentPort(2, 1) && Source(n, 2, 3, 1) == AgentPort(2, 2)
    ensures Inner(n, 2, 3, 0, 1) == (0, 2) && Inner(n, 2, 3, 1, 1) == (1, 2)
    ensures forall a: AgentId, b: AgentId :: Pair(n, a, b) ==> a == 2 && b == 3
  {
    assert Loop(n, 3) && !Loop(n, 2);
  }

  lemma ToFast1Agents(n: Net, F: seq<AgentId>, m: Net)
    requires Fast0(n) && Pair(n, 2, 3) && Reduced(n, 2, 3, F, m)
    ensures |F| == 2 && F[0] != F[1] && F[0] !in {4, 5} && F[1] !in {4, 5}
    ensures m.agents == map[F[0] := Dup, F[1] := Dup, 4 := Era, 5 := Era]
  {
    hide Reduced, Born, Joined, Pair, Clean;
    Fast0Shape(n);
    AgentsAfter(n, 2, 3, F, m);
    assert F[0] in F && F[1] in F;
    assert forall x :: x in F ==> x == F[0] || x == F[1];
    assert forall x :: Survives(n, 2, 3, x) <==> x in {4, 5};
  }

  lemma ToFast1(n: Net, F: seq<AgentId>, m: Net)
    requires Sound(n) && Fast0(n) && Pair(n, 2, 3) && Reduced(n, 2, 3, F, m)
    ensures |F| == 2 && Fast1(m, F[0], F[1])
  {
    hide Reduced, Sound, Clean, Born, Source, Inner, Pair;
    Fast0Shape(n);
    ToFast1Agents(n, F, m);
    TakesOver(n, 2, 3, F, m, 0, AgentPort(4, 0));
    TakesOver(n, 2, 3, F, m, 1, AgentPort(5, 0));
    NewWires(n, 2, 3, F, m, 0, 1);
    NewWires(n, 2, 3, F, m, 1, 1);
  }

  lemma Fast1Erasing(n: Net, g: AgentId, h: AgentId)
    requires Fast1(n, g, h)
    ensures Erasing(n) && Pair(n, g, 4) && Clean(n, g, 4)
  {}

  lemma ToFast2(n: Net, g: AgentId, h: AgentId, F: seq<AgentId>, m: Net)
    requires Fast1(n, g, h) && Pair(n, g, 4) && Reduced(n, g, 4, F, m)
    ensures Fast2(m, h)
  {
    assert Loop(n, g);
    AgentsAfter(n, g, 4, F, m);
    hide Reduced;
    Stays(n, g, 4, F, m, AgentPort(h, 0), AgentPort(5, 0));
    Stays(n, g, 4, F, m, AgentPort(h, 1), AgentPort(h, 2));
  }

  lemma ToFast3(n: Net, h: AgentId, F: seq<AgentId>, m: Net)
    requires Fast2(n, h) && Pair(n, h, 5) && Reduced(n, h, 5, F, m)
    ensures m.agents == map[]
  {
    assert Loop(n, h);
    AgentsAfter(n, h, 5, F, m);
    hide Reduced;
  }

  lemma Fast2Pair(n: Net, h: AgentId)
    requires Fast2(n, h)
    ensures Pair(n, h, 5) && Clean(n, h, 5)
  {}

  // -------------------------------------------------------------- the commutation first

  ghost predicate NewIds(e: seq<AgentId>) {
    && |e| == 4 && (forall i, j :: 0 <= i < j < 4 ==> e[i] != e[j]) && (forall i :: 0 <= i < 4 ==> e[i] !in {0, 1, 4, 5})
  }

  /** The new duplicators face the erasers, and are wired to the new constructors. */
  ghost predicate Crossed(n: Net, e: seq<AgentId>)
    requires |e| == 4
  {
    && Joined(n, AgentPort(e[0], 0), AgentPort(4, 0)) && Joined(n, AgentPort(e[1], 0), AgentPort(5, 0))
    && Joined(n, AgentPort(e[0], 1), AgentPort(e[2], 1)) && Joined(n, AgentPort(e[0], 2), AgentPort(e[3], 1))
    && Joined(n, AgentPort(e[1], 1), AgentPort(e[2], 2)) && Joined(n, AgentPort(e[1], 2), AgentPort(e[3], 2))
  }

  ghost predicate Slow0(n: Net, e: seq<AgentId>) {
    && NewIds(e) && Crossed(n, e)
    && n.agents == map[0 := Con, 1 := Con, e[0] := Dup, e[1] := Dup, e[2] := Con, e[3] := Con, 4 := Era, 5 := Era]
    && Joined(n, AgentPort(0, 0), AgentPort(1, 0)) && OnLabel(n, AgentPort(0, 2), 1) && OnLabel(n, AgentPort(1, 1), 2)
    && Joined(n, AgentPort(e[2], 0), AgentPort(0, 1)) && Joined(n, AgentPort(e[3], 0), AgentPort(1, 2))
  }

  ghost predicate Slow1(n: Net, e: seq<AgentId>) {
    && NewIds(e) && Crossed(n, e)
    && n.agents == map[e[0] := Dup, e[1] := Dup, e[2] := Con, e[3] := Con, 4 := Era, 5 := Era]
    && Joined(n, AgentPort(e[2], 0), AgentPort(e[3], 0))
  }

  ghost predicate Slow2(n: Net, e: seq<AgentId>) {
    && NewIds(e) && n.agents == map[e[0] := Dup, e[1] := Dup, 4 := Era, 5 := Era]
    && Joined(n, AgentPort(e[0], 0), AgentPort(4, 0)) && Joined(n, AgentPort(e[1], 0), AgentPort(5, 0))
    && Joined(n, AgentPort(e[0], 1), AgentPort(e[1], 2)) && Joined(n, AgentPort(e[0], 2), AgentPort(e[1], 1))
  }

  /** The first duplicator is erased. */
  ghost predicate Slow3(n: Net, d: AgentId, u: seq<AgentId>) {
    && |u| == 2 && u[0] != u[1] && u[0] !in {d, 5} && u[1] !in {d, 5} && d != 5
    && n.agents == map[d := Dup, 5 := Era, u[0] := Era, u[1] := Era]
    && Joined(n, AgentPort(d, 0), AgentPort(5, 0))
    && Joined(n, AgentPort(u[0], 0), AgentPort(d, 2)) && Joined(n, AgentPort(u[1], 0), AgentPort(d, 1))
  }

  /** Two pairs of erasers. */
  ghost predicate Slow4(n: Net, u: seq<AgentId>, v: seq<AgentId>) {
    && |u| == 2 && |v| == 2 && u[0] != u[1] && v[0] != v[1] && u[0] !in v && u[1] !in v
    && n.agents == map[u[0] := Era, u[1] := Era, v[0] := Era, v[1] := Era]
    && Joined(n, AgentPort(u[0], 0), AgentPort(v[1], 0)) && Joined(n, AgentPort(u[1], 0), AgentPort(v[0], 0))
  }

  ghost predicate Slow5(n: Net, x: AgentId, y: AgentId) {
    x != y && n.agents == map[x := Era, y := Era] && Joined(n, AgentPort(x, 0), AgentPort(y, 0))
  }

  lemma CommuteShape(n: Net)
    requires Start(n)
    ensures Pair(n, 2, 3) && Clean(n, 2, 3) && Born(n, 2, 3) == [Dup, Dup, Con, Con]
    ensures Source(n, 2, 3, 0) == AgentPort(2, 1) && Source(n, 2, 3, 1) == AgentPort(2, 2)
    ensures Source(n, 2, 3, 2) == AgentPort(3, 1) && Source(n, 2, 3, 3) == AgentPort(3, 2)
    ensures Inner(n, 2, 3, 0, 1) == (2, 1) && Inner(n, 2, 3, 0, 2) == (3, 1)
    ensures Inner(n, 2, 3, 1, 1) == (2, 2) && Inner(n, 2, 3, 1, 2) == (3, 2)
  {
    assert !Loop(n, 2) && !Loop(n, 3);
    StartPairs(n);
    hide Joined, OnLabel, Clean, Diverging;
  }

  ghost predicate Commuted(n: Net, F: seq<AgentId>, m: Net) {
    Sound(n) && Start(n) && Pair(n, 2, 3) && Reduced(n, 2, 3, F, m)
  }

  lemma ToSlowIds(n: Net, F: seq<AgentId>, m: Net)
    requires Commuted(n, F, m)
    ensures NewIds(F) && forall x :: x in m.agents <==> x in {0, 1, 4, 5} || x in {F[0], F[1], F[2], F[3]}
    ensures m.agents[0].Con? && m.agents[1].Con? && m.agents[4].Era? && m.agents[5].Era?
    ensures m.agents[F[0]].Dup? && m.agents[F[1]].Dup? && m.agents[F[2]].Con? && m.agents[F[3]].Con?
  {
    hide Reduced, Sound, Clean, Born, Source, Inner, Pair, Joined, OnLabel;
    CommuteShape(n);
    AgentsAfter(n, 2, 3, F, m);
    assert F[0] in F && F[1] in F && F[2] in F && F[3] in F;
    assert forall x :: x in F ==> x == F[0] || x == F[1] || x == F[2] || x == F[3];
    assert forall x :: Survives(n, 2, 3, x) <==> x in {0, 1, 4, 5};
  }

  lemma ToSlowAgents(n: Net, F: seq<AgentId>, m: Net)
    requires Commuted(n, F, m)
    ensures NewIds(F)
    ensures m.agents == map[0 := Con, 1 := Con, F[0] := Dup, F[1] := Dup, F[2] := Con, F[3] := Con, 4 := Era, 5 := Era]
  {
    hide Commuted;
    ToSlowIds(n, F, m);
  }

  lemma ToSlowWires(n: Net, F: seq<AgentId>, m: Net)
    requires Commuted(n, F, m) && |F| == 4
    ensures Joined(m, AgentPort(0, 0), AgentPort(1, 0)) && OnLabel(m, AgentPort(0, 2), 1) && OnLabel(m, AgentPort(1, 1), 2)
    ensures Joined(m, AgentPort(F[2], 0), AgentPort(0, 1)) && Joined(m, AgentPort(F[3], 0), AgentPort(1, 2))
    ensures Joined(m, AgentPort(F[0], 0), AgentPort(4, 0)) && Joined(m, AgentPort(F[1], 0), AgentPort(5, 0))
  {
    hide Reduced, Sound, Clean, Born, Source, Inner, Pair;
    CommuteShape(n);
    TakesOver(n, 2, 3, F, m, 0, AgentPort(4, 0));
    TakesOver(n, 2, 3, F, m, 1, AgentPort(5, 0));
    TakesOver(n, 2, 3, F, m, 2, AgentPort(0, 1));
    TakesOver(n, 2, 3, F, m, 3, AgentPort(1, 2));
    Stays(n, 2, 3, F, m, AgentPort(0, 0), AgentPort(1, 0));
    StaysOnLabel(n, 2, 3, F, m, AgentPort(0, 2), 1);
    StaysOnLabel(n, 2, 3, F, m, AgentPort(1, 1), 2);
  }

  lemma ToSlowCrossed(n: Net, F: seq<AgentId>, m: Net)
    requires Commuted(n, F, m) && |F| == 4
    ensures Crossed(m, F)
  {
    hide Reduced, Sound, Clean, Born, Source, Inner, Pair;
    ToSlowWires(n, F, m);
    CommuteShape(n);
    NewWires(n, 2, 3, F, m, 0, 1);
    NewWires(n, 2, 3, F, m, 0, 2);
    NewWires(n, 2, 3, F, m, 1, 1);
    NewWires(n, 2, 3, F, m, 1, 2);
  }

  lemma ToSlow0(n: Net, F: seq<AgentId>, m: Net)
    requires Commuted(n, F, m)
    ensures Slow0(m, F)
  {
    hide Commuted, Joined, OnLabel, Crossed;
    ToSlowAgents(n, F, m);
    ToSlowWires(n, F, m);
    ToSlowCrossed(n, F, m);
  }

  lemma Slow0Erasing(n: Net, e: seq<AgentId>)
    requires Slow0(n, e)
    ensures Erasing(n)
  {
    forall x | x in n.agents && n.agents[x].Dup? ensures Outlet(n, n.Target(AgentPort(x, 0))) {
      assert x == e[0] || x == e[1];
    }
    forall x, j | x in n.agents && n.agents[x].Con? && 1 <= j <= 2 ensures !ConAux(n, n.Target(AgentPort(x, j))) {
      assert x == 0 || x == 1 || x == e[2] || x == e[3];
    }
  }

  lemma Slow0Pair(n: Net, e: seq<AgentId>)
    requires Slow0(n, e)
    ensures Pair(n, 0, 1) && Clean(n, 0, 1)
  {}

  lemma CrossedStays(n: Net, e: seq<AgentId>, F: seq<AgentId>, m: Net)
    requires NewIds(e) && Crossed(n, e) && Pair(n, 0, 1) && Reduced(n, 0, 1, F, m)
    ensures Crossed(m, e)
  {
    hide Reduced, Pair;
    Stays(n, 0, 1, F, m, AgentPort(e[0], 0), AgentPort(4, 0));
    Stays(n, 0, 1, F, m, AgentPort(e[1], 0), AgentPort(5, 0));
    Stays(n, 0, 1, F, m, AgentPort(e[0], 1), AgentPort(e[2], 1));
    Stays(n, 0, 1, F, m, AgentPort(e[0], 2), AgentPort(e[3], 1));
    Stays(n, 0, 1, F, m, AgentPort(e[1], 1), AgentPort(e[2], 2));
    Stays(n, 0, 1, F, m, AgentPort(e[1], 2), AgentPort(e[3], 2));
  }

  lemma ToSlow1Agents(n: Net, e: seq<AgentId>, F: seq<AgentId>, m: Net)
    requires Slow0(n, e) && Pair(n, 0, 1) && Reduced(n, 0, 1, F, m)
    ensures m.agents == map[e[0] := Dup, e[1] := Dup, e[2] := Con, e[3] := Con, 4 := Era, 5 := Era]
  {
    assert Born(n, 0, 1) == [];
    hide Reduced, Crossed, Joined, OnLabel, Pair, Born;
    OnlyRemoved(n, 0, 1, F, m);
    WithoutTwo(n.agents, e);
  }

  lemma WithoutTwo(agents: map<AgentId, Symbol>, e: seq<AgentId>)
    requires NewIds(e)
    requires agents == map[0 := Con, 1 := Con, e[0] := Dup, e[1] := Dup, e[2] := Con, e[3] := Con, 4 := Era, 5 := Era]
    ensures agents - {0, 1} == map[e[0] := Dup, e[1] := Dup, e[2] := Con, e[3] := Con, 4 := Era, 5 := Era]
  {}

  lemma ToSlow1(n: Net, e: seq<AgentId>, F: seq<AgentId>, m: Net)
    requires Slow0(n, e) && Pair(n, 0, 1) && Reduced(n, 0, 1, F, m)
    ensures Slow1(m, e)
  {
    ToSlow1Agents(n, e, F, m);
    hide Reduced, Crossed;
    Joins(n, 0, 1, F, m, AgentPort(e[2], 0), AgentPort(0, 1), AgentPort(1, 2), AgentPort(e[3], 0));
    CrossedStays(n, e, F, m);
  }

  lemma Slow1Pair(n: Net, e: seq<AgentId>)
    requires Slow1(n, e)
    ensures Pair(n, e[2], e[3]) && Clean(n, e[2], e[3])
  {}

  lemma ToSlow2(n: Net, e: seq<AgentId>, F: seq<AgentId>, m: Net)
    requires Slow1(n, e) && Pair(n, e[2], e[3]) && Reduced(n, e[2], e[3], F, m)
    ensures Slow2(m, e)
  {
    var a, b := e[2], e[3];
    AgentsAfter(n, a, b, F, m);
    hide Reduced;
    Joins(n, a, b, F, m, AgentPort(e[0], 1), AgentPort(a, 1), AgentPort(b, 2), AgentPort(e[1], 2));
    Joins(n, a, b, F, m, AgentPort(e[0], 2), AgentPort(b, 1), AgentPort(a, 2), AgentPort(e[1], 1));
    Stays(n, a, b, F, m, AgentPort(e[0], 0), AgentPort(4, 0));
    Stays(n, a, b, F, m, AgentPort(e[1], 0), AgentPort(5, 0));
  }

  lemma Slow2Shape(n: Net, e: seq<AgentId>)
    requires Slow2(n, e)
    ensures Pair(n, e[0], 4) && Clean(n, e[0], 4) && Born(n, e[0], 4) == [Era, Era]
    ensures Source(n, e[0], 4, 0) == AgentPort(e[0], 1) && Source(n, e[0], 4, 1) == AgentPort(e[0], 2)
  {
    assert !Loop(n, e[0]);
  }

  lemma ToSlow3(n: Net, e: seq<AgentId>, F: seq<AgentId>, m: Net)
    requires Sound(n) && Slow2(n, e) && Pair(n, e[0], 4) && Reduced(n, e[0], 4, F, m)
    ensures Slow3(m, e[1], F)
  {
    hide Reduced, Sound, Clean, Born, Source, Pair;
    var a := e[0];
    Slow2Shape(n, e);
    AgentsAfter(n, a, 4, F, m);
    assert F[0] in F && F[1] in F;
    assert forall x :: x in F ==> x == F[0] || x == F[1];
    assert forall x :: Survives(n, a, 4, x) <==> x in {e[1], 5};
    Stays(n, a, 4, F, m, AgentPort(e[1], 0), AgentPort(5, 0));
    TakesOver(n, a, 4, F, m, 0, AgentPort(e[1], 2));
    TakesOver(n, a, 4, F, m, 1, AgentPort(e[1], 1));
  }

  lemma Slow3Shape(n: Net, d: AgentId, u: seq<AgentId>)
    requires Slow3(n, d, u)
    ensures Pair(n, d, 5) && Clean(n, d, 5) && Born(n, d, 5) == [Era, Era]
    ensures Source(n, d, 5, 0) == AgentPort(d, 1) && Source(n, d, 5, 1) == AgentPort(d, 2)
  {
    assert !Loop(n, d);
  }

  lemma ToSlow4(n: Net, d: AgentId, u: seq<AgentId>, F: seq<AgentId>, m: Net)
    requires Sound(n) && Slow3(n, d, u) && Pair(n, d, 5) && Reduced(n, d, 5, F, m)
    ensures Slow4(m, u, F)
  {
    hide Reduced, Sound, Clean, Born, Source, Pair;
    Slow3Shape(n, d, u);
    AgentsAfter(n, d, 5, F, m);
    assert F[0] in F && F[1] in F;
    assert forall x :: x in F ==> x == F[0] || x == F[1];
    assert forall x :: Survives(n, d, 5, x) <==> x in {u[0], u[1]};
    TakesOver(n, d, 5, F, m, 0, AgentPort(u[1], 0));
    TakesOver(n, d, 5, F, m, 1, AgentPort(u[0], 0));
  }

  lemma Slow4Pair(n: Net, u: seq<AgentId>, v: seq<AgentId>)
    requires Slow4(n, u, v)
    ensures Pair(n, u[0], v[1]) && Clean(n, u[0], v[1])
  {}

  lemma ToSlow5(n: Net, u: seq<AgentId>, v: seq<AgentId>, F: seq<AgentId>, m: Net)
    requires Slow4(n, u, v) && Pair(n, u[0], v[1]) && Reduced(n, u[0], v[1], F, m)
    ensures Slow5(m, u[1], v[0])
  {
    AgentsAfter(n, u[0], v[1], F, m);
    hide Reduced;
    assert v[0] in v && v[1] in v;
    Stays(n, u[0], v[1], F, m, AgentPort(u[1], 0), AgentPort(v[0], 0));
  }

  lemma Slow5Pair(n: Net, x: AgentId, y: AgentId)
    requires Slow5(n, x, y)
    ensures Pair(n, x, y) && Clean(n, x, y)
  {}

  lemma ToSlow6(n: Net, x: AgentId, y: AgentId, F: seq<AgentId>, m: Net)
    requires Slow5(n, x, y) && Pair(n, x, y) && Reduced(n, x, y, F, m)
    ensures m.agents == map[]
  {
    AgentsAfter(n, x, y, F, m);
    hide Reduced;
  }

  // ------------------------------------------------------------------------------- the runs

  ghost predicate Steady(n: Net) {
    Sound(n) && AllocOk(n)
  }

  lemma StepFrom(n: Net, a: AgentId, b: AgentId) returns (s: Move, F: seq<AgentId>)
    requires Steady(n) && Pair(n, a, b) && Clean(n, a, b)
    ensures s == Move(a, b, []) && Enabled(n, s) && Reduced(n, a, b, F, Take(n, s)) && Steady(Take(n, s))
  {
    s := Move(a, b, []);
    hide Sound, AllocOk, Reduced, Take, Clean;
    F := TakeIsStep(n, s);
  }

  /** Some run of length `k` ends in the empty net. */
  ghost predicate Drains(n: Net, k: nat) {
    exists run :: Legal(n, run) && |run| == k && After(n, run).agents == map[]
  }

  lemma DrainsMore(n: Net, s: Move, k: nat)
    requires Enabled(n, s) && Drains(Take(n, s), k)
    ensures Drains(n, k + 1)
  {
    hide Enabled, Take, Legal, After;
    var rest :| Legal(Take(n, s), rest) && |rest| == k && After(Take(n, s), rest).agents == map[];
    Prefixed(n, s, rest);
    assert |[s] + rest| == k + 1;
  }

  lemma DrainsNow(n: Net)
    requires n.agents == map[]
    ensures Drains(n, 0)
  {
    assert Legal(n, []) && After(n, []) == n;
  }

  lemma DrainFast(n: Net, g: AgentId, h: AgentId)
    requires Steady(n) && Fast1(n, g, h)
    ensures Drains(n, 2)
  {
    hide Steady, Fast1, Fast2, Pair, Clean, Reduced, Enabled, Take, Drains, Erasing;
    Fast1Erasing(n, g, h);
    var s, F := StepFrom(n, g, 4);
    ToFast2(n, g, h, F, Take(n, s));
    Fast2Pair(Take(n, s), h);
    var t, G := StepFrom(Take(n, s), h, 5);
    ToFast3(Take(n, s), h, G, Take(Take(n, s), t));
    DrainsNow(Take(Take(n, s), t));
    DrainsMore(Take(n, s), t, 0);
    DrainsMore(n, s, 1);
  }

  lemma DrainErasers(n: Net, u: seq<AgentId>, v: seq<AgentId>)
    requires Steady(n) && Slow4(n, u, v)
    ensures Drains(n, 2)
  {
    hide Steady, Slow4, Slow5, Pair, Clean, Reduced, Enabled, Take, Drains;
    Slow4Size(n, u, v);
    Slow4Pair(n, u, v);
    var s, F := StepFrom(n, u[0], v[1]);
    ToSlow5(n, u, v, F, Take(n, s));
    Slow5Pair(Take(n, s), u[1], v[0]);
    var t, G := StepFrom(Take(n, s), u[1], v[0]);
    ToSlow6(Take(n, s), u[1], v[0], G, Take(Take(n, s), t));
    DrainsNow(Take(Take(n, s), t));
    DrainsMore(Take(n, s), t, 0);
    DrainsMore(n, s, 1);
  }

  lemma Slow4Size(n: Net, u: seq<AgentId>, v: seq<AgentId>)
    requires Slow4(n, u, v)
    ensures |u| == 2 && |v| == 2
  {}

  lemma DrainDups(n: Net, e: seq<AgentId>)
    requires Steady(n) && Slow2(n, e)
    ensures Drains(n, 4)
  {
    assert |e| == 4;
    hide Steady, Slow2, Slow3, Slow4, Pair, Clean, Reduced, Enabled, Take, Drains, Born, Source;
    Slow2Shape(n, e);
    var s, F := StepFrom(n, e[0], 4);
    SteadySound(n);
    ToSlow3(n, e, F, Take(n, s));
    var m := Take(n, s);
    Slow3Shape(m, e[1], F);
    var t, G := StepFrom(m, e[1], 5);
    SteadySound(m);
    ToSlow4(m, e[1], F, G, Take(m, t));
    DrainErasers(Take(m, t), F, G);
    DrainsMore(m, t, 2);
    DrainsMore(n, s, 3);
  }

  lemma SteadySound(n: Net)
    requires Steady(n)
    ensures Sound(n) && AllocOk(n)
  {}

  lemma DrainSlow(n: Net, e: seq<AgentId>)
    requires Steady(n) && Slow0(n, e)
    ensures Drains(n, 6)
  {
    assert |e| == 4;
    hide Steady, Slow0, Slow1, Slow2, Pair, Clean, Reduced, Enabled, Take, Drains;
    Slow0Pair(n, e);
    var s, F := StepFrom(n, 0, 1);
    var m := Take(n, s);
    ToSlow1(n, e, F, m);
    Slow1Pair(m, e);
    var t, G := StepFrom(m, e[2], e[3]);
    ToSlow2(m, e, G, Take(m, t));
    DrainDups(Take(m, t), e);
    DrainsMore(m, t, 4);
    DrainsMore(n, s, 5);
  }

  // -------------------------------------------------------------------- every run drains

  lemma EmptyIsNormal(n: Net)
    requires n.agents == map[]
    ensures R.IsNormalForm(n)
  {}

  lemma EmptyImage(n: Net, m: Net)
    requires Isomorphic(n, m) && n.agents == map[]
    ensures m.agents == map[]
  {
    SizesAgree(n, m);
    assert |n.agents.Keys| == 0;
    hide Isomorphic;
    assert m.agents.Keys == {};
  }

  /** From a net of that kind with one run to the empty net, every run leads there. */
  lemma AllDrain(n: Net, k: nat, run: seq<Move>)
    requires Steady(n) && Erasing(n) && Drains(n, k) && Legal(n, run) && R.IsNormalForm(After(n, run))
    ensures After(n, run).agents == map[]
  {
    hide Erasing, Legal, After, R.IsNormalForm, Isomorphic, Sound, AllocOk;
    var one :| Legal(n, one) && |one| == k && After(n, one).agents == map[];
    EmptyIsNormal(After(n, one));
    ErasingUnique(n, one, run);
    EmptyImage(After(n, one), After(n, run));
  }

  lemma Begins(n: Net, s: Move) returns (F: seq<AgentId>)
    requires Steady(n) && Start(n) && Enabled(n, s)
    ensures Steady(Take(n, s)) && (s.a == 2 ==> Slow0(Take(n, s), F)) && (s.a != 2 ==> Fast0(Take(n, s)))
  {
    StartPairs(n);
    StartOnly(n, s.a, s.b);
    hide Steady, Start, Reduced, Take, Clean, Pair, Slow0, Fast0, Diverging;
    SteadySound(n);
    F := TakeIsStep(n, s);
    if s.a == 2 {
      ToSlow0(n, F, Take(n, s));
    } else {
      if s.a == 1 { SwappedStep(n, 1, 0, F, Take(n, s)); }
      ToFast0(n, F, Take(n, s));
    }
    MakeSteady(Take(n, s));
  }

  lemma MakeSteady(n: Net)
    requires Sound(n) && AllocOk(n)
    ensures Steady(n)
  {}

  /** After the annihilation there is one move, to a net of that kind. */
  lemma Second(n: Net, s: Move) returns (F: seq<AgentId>)
    requires Steady(n) && Fast0(n) && Enabled(n, s)
    ensures Steady(Take(n, s)) && |F| == 2 && Fast1(Take(n, s), F[0], F[1])
  {
    Fast0Shape(n);
    hide Steady, Fast0, Fast1, Reduced, Take, Clean, Pair, Born, Source, Inner;
    SteadySound(n);
    F := TakeIsStep(n, s);
    ToFast1(n, F, Take(n, s));
    MakeSteady(Take(n, s));
  }

  lemma FastNotNormal(n: Net)
    requires Fast0(n)
    ensures !R.IsNormalForm(n)
  {
    assert Faces(n, 2, 3);
  }

  lemma StartNotNormal(n: Net)
    requires Start(n)
    ensures !R.IsNormalForm(n)
  {
    assert Faces(n, 0, 1);
  }

  lemma EveryRun(n: Net, run: seq<Move>)
    requires Steady(n) && Start(n) && Legal(n, run) && R.IsNormalForm(After(n, run))
    ensures After(n, run).agents == map[]
  {
    hide Steady, Start, Slow0, Fast0, Fast1, Take, R.IsNormalForm, Enabled, Erasing, Drains, Pair, Clean;
    StartNotNormal(n);
    var m := Take(n, run[0]);
    var F := Begins(n, run[0]);
    if run[0].a == 2 {
      Slow0Erasing(m, F);
      DrainSlow(m, F);
      AllDrain(m, 6, run[1..]);
    } else {
      FastNotNormal(m);
      var k := Take(m, run[1]);
      assert run[1..][0] == run[1] && run[1..][1..] == run[2..];
      var G := Second(m, run[1]);
      Fast1Erasing(k, G[0], G[1]);
      DrainFast(k, G[0], G[1]);
      AllDrain(k, 2, run[2..]);
    }
  }

  lemma TwoLengths(n: Net)
    requires Steady(n) && Start(n)
    ensures Drains(n, 4) && Drains(n, 7)
  {
    StartPairs(n);
    hide Steady, Start, Slow0, Fast0, Fast1, Take, Drains, Pair, Clean, Diverging, Reduced, Born, Source, Inner;
    var s, F := StepFrom(n, 2, 3);
    F := Begins(n, s);
    DrainSlow(Take(n, s), F);
    DrainsMore(n, s, 6);
    var t, G := StepFrom(n, 0, 1);
    G := Begins(n, t);
    var m := Take(n, t);
    Fast0Shape(m);
    var u, H := StepFrom(m, 2, 3);
    H := Second(m, u);
    DrainFast(Take(m, u), H[0], H[1]);
    DrainsMore(m, u, 2);
    DrainsMore(n, t, 3);
  }

  lemma DrainedSteady()
    ensures Steady(DRAINED_LOOP) && Start(DRAINED_LOOP)
  {
    hide Start, Sound, AllocOk;
    DrainedStarts();
    DrainedAlloc();
    StartSound(DRAINED_LOOP);
  }

  /** The loop that the annihilation closes diverges; yet every run to a normal form ends in
      the empty net, one after four interactions and one after seven. */
  lemma DrainedKeepsForm()
    ensures TwoPairs(DRAINED_LOOP, 0, 1, 2, 3) && Diverging(DRAINED_LOOP, 0, 1, 2, 3)
    ensures forall run :: Legal(DRAINED_LOOP, run) && R.IsNormalForm(After(DRAINED_LOOP, run)) ==> After(DRAINED_LOOP, run).agents == map[]
    ensures Drains(DRAINED_LOOP, 4) && Drains(DRAINED_LOOP, 7)
  {
    var n := DRAINED_LOOP;
    hide Steady, Start, Drains, Legal, After, R.IsNormalForm, TwoPairs, Diverging, Pair, Clean;
    DrainedSteady();
    StartPairs(n);
    forall run | Legal(n, run) && R.IsNormalForm(After(n, run)) ensures After(n, run).agents == map[] { EveryRun(n, run); }
    TwoLengths(n);
  }
}
