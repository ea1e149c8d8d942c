/** What happens after an annihilation closes a loop on the other pair: the slower order
    has created an extra active pair, and reducing it rejoins the faster order, or not. */
module Rejoining {
  import opened Nets
  import opened NetIsomorphism
  import opened Interaction
  import B = Backtracking
  import opened Confluence
  import Transport

  /** `R` annihilates first, `S` commutes or erases first. */
  ghost predicate Race(R: Run, S: Run) {
    Valid(R) && Valid(S) && Opposite(R, S) && Anni(R.n, R.a, R.b) && !Anni(R.n, R.c, R.d)
  }

  /** Where an end that `R.mid` knows is found after the slower order. */
  ghost function Later(R: Run, S: Run, t: PortRef): PortRef
    requires Race(R, S)
  {
    Place(R.n, R.c, R.d, S.F, t)
  }

  // ------------------------------------- the slower order, seen from after the annihilation

  /** The annihilating pair looks the same after the other step. */
  lemma PairAfter(R: Run, S: Run)
    requires Race(R, S)
    ensures forall u :: Aux(S.mid, R.a, R.b, u) == Aux(R.n, R.a, R.b, u)
    ensures Anni(S.mid, R.a, R.b)
    ensures forall u :: Aux(R.n, R.a, R.b, u) ==> Across(S.mid, R.a, R.b, u) == Across(R.n, R.a, R.b, u)
    ensures |S.F| == |Born(R.n, R.c, R.d)| && S.G == [] && R.F == []
  {
    SameShape(S);
    hide Valid;
  }

  lemma SlowMid(R: Run, S: Run, p: PortRef)
    requires Race(R, S) && R.n.IsPort(p) && Survives(R.n, R.c, R.d, p.id)
    ensures S.mid.IsPort(p) && S.mid.Target(p) == Later(R, S, R.n.Target(p))
  {}

  lemma FastMid(R: Run, S: Run, p: PortRef)
    requires Race(R, S) && R.n.IsPort(p) && Survives(R.n, R.a, R.b, p.id)
    ensures R.mid.IsPort(p) && R.mid.Target(p) == End(R.n, R.a, R.b, R.n.Target(p))
  {}

  /** Ports of the annihilating pair stay where they are, and nothing else becomes one. */
  lemma LaterAux(R: Run, S: Run, r: PortRef)
    requires Race(R, S)
    ensures Aux(R.n, R.a, R.b, Later(R, S, r)) <==> Aux(R.n, R.a, R.b, r)
    ensures Aux(R.n, R.a, R.b, r) ==> Later(R, S, r) == r
  {}

  /** Following a wire through the annihilating pair does not mind the other step. */
  lemma EndLater(R: Run, S: Run, r: PortRef)
    requires Race(R, S)
    ensures End(S.mid, R.a, R.b, Later(R, S, r)) == Later(R, S, End(R.n, R.a, R.b, r))
  {
    PairAfter(R, S);
    LaterAux(R, S, r);
    if Aux(R.n, R.a, R.b, r) {
      var u := Across(R.n, R.a, R.b, r);
      var s := R.n.Target(u);
      AcrossPort(R, S, r);
      SlowMid(R, S, u);
      LaterAux(R, S, s);
      if Aux(R.n, R.a, R.b, s) {
        AcrossPort(R, S, s);
        SlowMid(R, S, Across(R.n, R.a, R.b, s));
      }
    }
    hide Race, Later;
  }

  lemma AcrossPort(R: Run, S: Run, r: PortRef)
    requires Race(R, S) && Aux(R.n, R.a, R.b, r)
    ensures var u := Across(R.n, R.a, R.b, r); R.n.IsPort(u) && Survives(R.n, R.c, R.d, u.id)
  {}

  ghost predicate Bystander(R: Run, p: PortRef) {
    R.n.IsPort(p) && SurvivesBoth(R.n, R.a, R.b, R.c, R.d, p.id)
  }

  /** After the slower order a port is where `R.mid` leads it, with the new agents standing
      for the ports they took over. */
  lemma SlowTarget(R: Run, S: Run, p: PortRef)
    requires Race(R, S) && Bystander(R, p)
    ensures S.m.Target(p) == Later(R, S, R.mid.Target(p))
  {
    SlowMid(R, S, p);
    FastMid(R, S, p);
    EndLater(R, S, R.n.Target(p));
    assert S.m.Target(p) == Follow(S.mid, R.a, R.b, S.G, S.mid.Target(p));
    PairAfter(R, S);
    hide Later, End;
  }

  /** The annihilation after the other step, at a port that survives it. */
  lemma SlowLast(R: Run, S: Run, q: PortRef)
    requires Race(R, S) && S.mid.IsPort(q) && Survives(S.mid, R.a, R.b, q.id)
    ensures S.m.Target(q) == End(S.mid, R.a, R.b, S.mid.Target(q))
  {
    PairAfter(R, S);
    assert S.m.Target(q) == Follow(S.mid, R.a, R.b, S.G, S.mid.Target(q));
    hide Race;
  }

  /** The agents the slower order creates, before the annihilation. */
  lemma SlowNew(R: Run, S: Run, k: nat)
    requires Race(R, S) && k < |S.F|
    ensures k < |Born(R.n, R.c, R.d)| && S.F[k] in S.mid.agents && S.mid.agents[S.F[k]] == Born(R.n, R.c, R.d)[k]
    ensures Survives(S.mid, R.a, R.b, S.F[k])
  {
    PairAfter(R, S);
  }

  lemma SlowSource(R: Run, S: Run, k: nat)
    requires Race(R, S) && k < |S.F| && k < |Born(R.n, R.c, R.d)|
    ensures var u := Source(R.n, R.c, R.d, k);
      && Aux(R.n, R.c, R.d, u) && Survives(R.n, R.a, R.b, u.id)
      && S.mid.Target(AgentPort(S.F[k], 0)) == Later(R, S, R.n.Target(u))
  {
    SourceOutside(R.n, R.c, R.d, k);
    HeirWire(R.n, R.c, R.d, S.F, S.mid, k);
  }

  lemma SlowPrincipal(R: Run, S: Run, k: nat)
    requires Race(R, S) && k < |S.F|
    ensures k < |Born(R.n, R.c, R.d)| && Aux(R.n, R.c, R.d, Source(R.n, R.c, R.d, k))
    ensures S.m.Target(AgentPort(S.F[k], 0)) == Later(R, S, R.mid.Target(Source(R.n, R.c, R.d, k)))
  {
    RacePairs(R, S);
    hide Race, Later, End, Source, Born;
    SlowNew(R, S, k);
    SlowSource(R, S, k);
    var u := Source(R.n, R.c, R.d, k);
    FastMid(R, S, u);
    EndLater(R, S, R.n.Target(u));
    SlowLast(R, S, AgentPort(S.F[k], 0));
  }

  lemma SlowInner(R: Run, S: Run, k: nat, j: nat)
    requires Race(R, S) && k < |S.F| && k < |Born(R.n, R.c, R.d)| && 1 <= j < TotalPorts(Born(R.n, R.c, R.d)[k])
    ensures var i := Inner(R.n, R.c, R.d, k, j);
      i.0 < |S.F| && S.m.Target(AgentPort(S.F[k], j)) == AgentPort(S.F[i.0], i.1)
  {
    RacePairs(R, S);
    var i := Inner(R.n, R.c, R.d, k, j);
    Transport.InnerTarget(R.n, R.c, R.d, S.F, S.mid, k, j);
    hide Race, Born, Inner, Reduced;
    SlowNew(R, S, k);
    SlowNew(R, S, i.0);
    SlowLast(R, S, AgentPort(S.F[k], j));
  }

  lemma RacePairs(R: Run, S: Run)
    requires Race(R, S)
    ensures Pair(R.n, R.a, R.b) && Pair(R.n, R.c, R.d) && Reduced(R.n, R.c, R.d, S.F, S.mid)
    ensures Sound(R.n) && Clean(R.n, R.c, R.d) && TwoPairs(R.n, R.a, R.b, R.c, R.d)
  {}

  lemma SlowAgents(R: Run, S: Run)
    requires Race(R, S)
    ensures forall x :: x in S.m.agents <==> SurvivesBoth(R.n, R.a, R.b, R.c, R.d, x) || x in S.F
    ensures forall x :: x in S.F ==> !SurvivesBoth(R.n, R.a, R.b, R.c, R.d, x)
    ensures Pair(R.n, R.c, R.d) && |S.F| == |Born(R.n, R.c, R.d)|
    ensures forall k :: 0 <= k < |S.F| ==> S.F[k] in S.m.agents && S.m.agents[S.F[k]] == Born(R.n, R.c, R.d)[k]
    ensures forall i, j :: 0 <= i < j < |S.F| ==> S.F[i] != S.F[j]
    ensures forall x :: SurvivesBoth(R.n, R.a, R.b, R.c, R.d, x) ==> x in S.m.agents && S.m.agents[x] == R.n.agents[x]
  {
    PairAfter(R, S);
    assert Stable(S);
    RunAgents(S);
  }

  // ----------------------------------------------------------------- the faster order

  lemma FastAgents(R: Run, S: Run)
    requires Race(R, S)
    ensures forall x :: x in R.m.agents <==> SurvivesBoth(R.n, R.a, R.b, R.c, R.d, x) || x in R.G
    ensures forall x :: x in R.G ==> !SurvivesBoth(R.n, R.a, R.b, R.c, R.d, x)
    ensures |R.G| == |Born(R.mid, R.c, R.d)|
    ensures forall k :: 0 <= k < |R.G| ==> R.m.agents[R.G[k]] == Born(R.mid, R.c, R.d)[k]
    ensures forall i, j :: 0 <= i < j < |R.G| ==> R.G[i] != R.G[j]
    ensures forall x :: SurvivesBoth(R.n, R.a, R.b, R.c, R.d, x) ==> R.m.agents[x] == R.n.agents[x]
  {
    PairAfter(R, S);
    assert forall x :: x in R.mid.agents <==> Survives(R.n, R.a, R.b, x);
  }

  lemma FastMidFacts(R: Run, S: Run)
    requires Race(R, S)
    ensures Sound(R.mid) && Pair(R.mid, R.c, R.d) && Clean(R.mid, R.c, R.d) && Reduced(R.mid, R.c, R.d, R.G, R.m)
    ensures R.mid.agents[R.c] == R.n.agents[R.c] && R.mid.agents[R.d] == R.n.agents[R.d]
    ensures !Anni(R.mid, R.c, R.d) && forall u :: Aux(R.mid, R.c, R.d, u) == Aux(R.n, R.c, R.d, u)
  {
    ReducedSound(R.n, R.a, R.b, R.F, R.mid);
    SameShape(R);
  }

  lemma BystanderMid(R: Run, S: Run, p: PortRef)
    requires Race(R, S) && Bystander(R, p)
    ensures R.mid.IsPort(p) && Survives(R.mid, R.c, R.d, p.id)
  {
    FastMid(R, S, p);
  }

  /** What a bystander's wire meets after the annihilation: another bystander, the
      interface, or an auxiliary port of the other pair that is not looped. */
  lemma MidKinds(R: Run, S: Run, p: PortRef)
    requires Race(R, S) && Bystander(R, p)
    ensures var t := R.mid.Target(p);
      && (Aux(R.n, R.c, R.d, t) ==> !Loop(R.mid, t.id))
      && (t.AgentPort? && !Aux(R.n, R.c, R.d, t) ==> Bystander(R, t))
  {
    BystanderMid(R, S, p);
    FastMidFacts(R, S);
    MidAgents(R, S);
    hide Race, Sound, Pair, Clean, Reduced, Loop, Anni;
    OutsideWire(R.mid, R.c, R.d, p);
  }

  /** A wire from outside a pair meets it at an auxiliary port of an agent without a loop. */
  lemma OutsideWire(m: Net, c: AgentId, d: AgentId, p: PortRef)
    requires Sound(m) && Pair(m, c, d) && m.IsPort(p) && p.id != c && p.id != d
    ensures var t := m.Target(p);
      t.AgentPort? ==> m.IsPort(t) && (t.id == c || t.id == d ==> Aux(m, c, d, t) && !Loop(m, t.id))
  {
    var t := m.Target(p);
    if t.AgentPort? { assert m.IsPort(t) && m.Target(t) == p; }
  }

  lemma MidAgents(R: Run, S: Run)
    requires Race(R, S)
    ensures forall x :: x in R.mid.agents <==> Survives(R.n, R.a, R.b, x)
    ensures forall x :: x in R.mid.agents ==> R.mid.agents[x] == R.n.agents[x]
  {
    PairAfter(R, S);
  }

  lemma FastTarget(R: Run, S: Run, p: PortRef)
    requires Race(R, S) && Bystander(R, p)
    ensures R.m.Target(p) == Place(R.mid, R.c, R.d, R.G, R.mid.Target(p))
  {
    BystanderMid(R, S, p);
    FastMidFacts(R, S);
    hide Race, Place;
    assert R.m.Target(p) == Follow(R.mid, R.c, R.d, R.G, R.mid.Target(p));
  }

  // -------------------------------------------------------------------- the extra pair

  /** The place, among the agents created for (c, d), of the two that take over the wires
      of `x`. */
  ghost function Twin(R: Run, x: AgentId): nat {
    if x == R.d && !Loop(R.n, R.c) then 2 else 0
  }

  /** The annihilation closes a loop on `x`. */
  ghost predicate Shut(R: Run, S: Run, x: AgentId)
    requires Race(R, S)
  {
    (x == R.c || x == R.d) && Closes(R.n, R.a, R.b, x)
  }

  lemma ShutLoops(R: Run, S: Run, x: AgentId)
    requires Race(R, S) && (x == R.c || x == R.d)
    ensures Loop(R.mid, x) <==> Loop(R.n, x) || Shut(R, S, x)
    ensures !(Loop(R.n, x) && Shut(R, S, x))
    ensures Shut(R, S, x) ==> R.n.IsPort(AgentPort(x, 1)) && R.n.IsPort(AgentPort(x, 2))
  {
    LoopAfter(R, x);
  }

  lemma TwinSources(R: Run, S: Run, x: AgentId)
    requires Race(R, S) && Shut(R, S, x)
    ensures Pair(R.n, R.c, R.d) && TwinsOf(R.n, R.c, R.d, x, Twin(R, x))
  {
    ShutLoops(R, S, x);
    RacePairs(R, S);
    hide Race, Shut, Pair, Loop, Anni, TwinsOf, Reduced, Sound, Clean;
    assert !Anni(R.n, R.c, R.d) by { NotAnni(R, S); }
    TwinsAt(R.n, R.c, R.d, x);
  }

  lemma NotAnni(R: Run, S: Run)
    requires Race(R, S)
    ensures R.c in R.n.agents && R.d in R.n.agents && !Anni(R.n, R.c, R.d)
  {}

  /** New agents `i` and `i + 1` take over the two wires of `x`. */
  ghost predicate TwinsOf(n: Net, c: AgentId, d: AgentId, x: AgentId, i: nat)
    requires Pair(n, c, d)
  {
    var u, v := AgentPort(x, 1), AgentPort(x, 2);
    && i + 1 < |Born(n, c, d)| && Born(n, c, d)[i] == Born(n, c, d)[i + 1]
    && Source(n, c, d, i) == u && Source(n, c, d, i + 1) == v
    && Aux(n, c, d, u) && Heir(n, c, d, u) == i && Aux(n, c, d, v) && Heir(n, c, d, v) == i + 1
  }

  lemma TwinsAt(n: Net, c: AgentId, d: AgentId, x: AgentId)
    requires Pair(n, c, d) && !Anni(n, c, d) && (x == c || x == d) && !Loop(n, x)
    requires n.IsPort(AgentPort(x, 1)) && n.IsPort(AgentPort(x, 2))
    ensures TwinsOf(n, c, d, x, if x == d && !Loop(n, c) then 2 else 0)
  {
    if x == d {
      assert n.agents[d].Dup? && n.agents[c].Con?;
    }
  }

  /** The two agents that took over the wires of `x` face each other after the slower order. */
  lemma TwinsFace(R: Run, S: Run, x: AgentId)
    requires Race(R, S) && Shut(R, S, x)
    ensures Twin(R, x) + 1 < |S.F| && FacingPair(S.m, S.F[Twin(R, x)], S.F[Twin(R, x) + 1])
  {
    hide *;
    TwinsThere(R, S, x);
    TwinTarget(R, S, x, 1);
    TwinTarget(R, S, x, 2);
    var i := Twin(R, x);
    FacingTwins(S.m, S.F[i], S.F[i + 1]);
  }

  /** A pair that leaves no agents. */
  ghost predicate FacingPair(m: Net, e: AgentId, f: AgentId) {
    Pair(m, e, f) && Born(m, e, f) == []
  }

  lemma FacingTwins(m: Net, e: AgentId, f: AgentId)
    requires e in m.agents && f in m.agents && e != f && m.agents[e] == m.agents[f]
    requires m.Target(AgentPort(e, 0)) == AgentPort(f, 0) && m.Target(AgentPort(f, 0)) == AgentPort(e, 0)
    ensures FacingPair(m, e, f)
  {}

  /** Both are live, with the same symbol. */
  lemma TwinsThere(R: Run, S: Run, x: AgentId)
    requires Race(R, S) && Shut(R, S, x)
    ensures var i := Twin(R, x);
      && i + 1 < |S.F| && S.F[i] in S.m.agents && S.F[i + 1] in S.m.agents && S.F[i] != S.F[i + 1]
      && S.m.agents[S.F[i]] == S.m.agents[S.F[i + 1]]
  {
    hide Race, Shut, Twin, Born;
    TwinSources(R, S, x);
    SlowAgents(R, S);
    var i := Twin(R, x);
    assert S.F[i] in S.F && S.F[i + 1] in S.F;
  }

  lemma LaterTwin(R: Run, S: Run, x: AgentId, j: nat)
    requires Race(R, S) && Shut(R, S, x) && 1 <= j <= 2
    ensures var i := Twin(R, x); i + 1 < |S.F| && Later(R, S, AgentPort(x, j)) == AgentPort(S.F[i + j - 1], 0)
  {
    hide Race, Shut, Twin, Born, Source, Heir, Anni;
    TwinSources(R, S, x);
    TwinsThere(R, S, x);
    NotAnni(R, S);
    assert j == 1 || j == 2;
  }

  lemma TwinTarget(R: Run, S: Run, x: AgentId, j: nat)
    requires Race(R, S) && Shut(R, S, x) && 1 <= j <= 2
    ensures var i := Twin(R, x);
      i + 1 < |S.F| && S.m.Target(AgentPort(S.F[i + j - 1], 0)) == AgentPort(S.F[i + 2 - j], 0)
  {
    hide Race, Shut, Twin, Born, Source, Heir, Loop, Anni, Later;
    var i := Twin(R, x);
    TwinSources(R, S, x);
    TwinsThere(R, S, x);
    ShutLoops(R, S, x);
    SlowPrincipal(R, S, i + j - 1);
    assert Source(R.n, R.c, R.d, i + j - 1) == AgentPort(x, j) by { assert j == 1 || j == 2; }
    LoopTarget(R.mid, x, j);
    LaterTwin(R, S, x, 3 - j);
  }

  lemma LoopTarget(m: Net, x: AgentId, j: nat)
    requires Loop(m, x) && 1 <= j <= 2
    ensures m.Target(AgentPort(x, j)) == AgentPort(x, 3 - j)
  {
    assert j == 1 || j == 2;
  }

  // ------------------------------------------------------------- reducing the extra pair

  /** `w` is the slower order with the extra pair, that of the agents which took over the
      wires of `x`, reduced. */
  ghost predicate Third(R: Run, S: Run, x: AgentId, w: Net) {
    && Race(R, S) && Shut(R, S, x) && Twin(R, x) + 1 < |S.F|
    && FacingPair(S.m, S.F[Twin(R, x)], S.F[Twin(R, x) + 1])
    && Reduced(S.m, S.F[Twin(R, x)], S.F[Twin(R, x) + 1], [], w)
  }

  lemma ThirdParts(R: Run, S: Run, x: AgentId, w: Net)
    requires Third(R, S, x, w)
    ensures Race(R, S) && Shut(R, S, x) && Twin(R, x) + 1 < |S.F|
    ensures var e, f := S.F[Twin(R, x)], S.F[Twin(R, x) + 1];
      FacingPair(S.m, e, f) && Pair(S.m, e, f) && Reduced(S.m, e, f, [], w)
  {}

  /** A step that creates nothing leaves the other agents, and wires that do not meet it. */
  lemma VanishAgents(m: Net, e: AgentId, f: AgentId, w: Net)
    requires Pair(m, e, f) && Reduced(m, e, f, [], w)
    ensures forall x :: x in w.agents <==> Survives(m, e, f, x)
    ensures forall x :: x in w.agents ==> w.agents[x] == m.agents[x]
    ensures forall x :: x in w.agents ==> x < w.arena
  {}

  lemma VanishStays(m: Net, e: AgentId, f: AgentId, w: Net, q: PortRef)
    requires Pair(m, e, f) && Reduced(m, e, f, [], w) && m.IsPort(q) && Survives(m, e, f, q.id)
    requires !Aux(m, e, f, m.Target(q))
    ensures w.Target(q) == m.Target(q)
  {
    assert w.Target(q) == Follow(m, e, f, [], m.Target(q));
  }

  lemma ThirdAgents(R: Run, S: Run, x: AgentId, w: Net)
    requires Third(R, S, x, w)
    ensures Twin(R, x) + 1 < |S.F|
    ensures forall y :: y in w.agents <==>
      SurvivesBoth(R.n, R.a, R.b, R.c, R.d, y) || (y in S.F && y != S.F[Twin(R, x)] && y != S.F[Twin(R, x) + 1])
    ensures forall y :: y in w.agents ==> y in S.m.agents && w.agents[y] == S.m.agents[y] && y < w.arena
  {
    hide Third, Race, Shut, Twin, Reduced, Pair, FacingPair;
    ThirdParts(R, S, x, w);
    SlowAgents(R, S);
    var i := Twin(R, x);
    VanishAgents(S.m, S.F[i], S.F[i + 1], w);
    assert S.F[i] in S.F && S.F[i + 1] in S.F;
  }

  /** What a wire can meet in `R.mid`, seen from a port that survives everything. */
  ghost predicate Met(R: Run, t: PortRef) {
    t.FreePort? || Bystander(R, t) || (Aux(R.n, R.c, R.d, t) && !Loop(R.mid, t.id))
  }

  lemma LaterKind(R: Run, S: Run, t: PortRef)
    requires Race(R, S) && Met(R, t)
    ensures var s := Later(R, S, t); s.FreePort? || s.port == 0 || (s.id !in S.F && s == t)
    ensures !Aux(R.n, R.c, R.d, t) ==> Later(R, S, t) == t
  {
    SlowAgents(R, S);
    if Aux(R.n, R.c, R.d, t) {
      ShutLoops(R, S, t.id);
      RacePairs(R, S);
      hide Race, Met, Shut;
      HeirThere(R, S, t);
    } else {
      hide Race;
    }
  }

  lemma HeirThere(R: Run, S: Run, t: PortRef)
    requires Race(R, S) && Aux(R.n, R.c, R.d, t) && !Loop(R.n, t.id)
    ensures Pair(R.n, R.c, R.d) && Heir(R.n, R.c, R.d, t) < |S.F|
    ensures Later(R, S, t) == AgentPort(S.F[Heir(R.n, R.c, R.d, t)], 0)
  {
    hide Race, Sound, Clean, Reduced, Born, Heir, Loop, Pair, Anni;
    PairAfter(R, S);
    RacePairs(R, S);
    NotAnni(R, S);
    HeirInRange(R.n, R.c, R.d, t);
  }

  /** An auxiliary port of an agent without a loop has an heir. */
  lemma HeirInRange(n: Net, c: AgentId, d: AgentId, t: PortRef)
    requires Pair(n, c, d) && !Anni(n, c, d) && Aux(n, c, d, t) && !Loop(n, t.id)
    ensures Heir(n, c, d, t) < |Born(n, c, d)|
  {}

  lemma SurvivorMet(R: Run, S: Run, p: PortRef)
    requires Race(R, S) && Bystander(R, p)
    ensures Met(R, R.mid.Target(p))
  {
    MidKinds(R, S, p);
  }

  /** A wire of a bystander in the end. */
  lemma ThirdBystander(R: Run, S: Run, x: AgentId, w: Net, p: PortRef)
    requires Third(R, S, x, w) && Bystander(R, p)
    ensures Met(R, R.mid.Target(p)) && Race(R, S) && w.Target(p) == Later(R, S, R.mid.Target(p))
  {
    hide Third, Race, Shut, Twin, Reduced, Pair, FacingPair, Later, Met;
    ThirdParts(R, S, x, w);
    SlowTarget(R, S, p);
    SurvivorMet(R, S, p);
    LaterKind(R, S, R.mid.Target(p));
    SlowAgents(R, S);
    var i := Twin(R, x);
    assert S.F[i] in S.F && S.F[i + 1] in S.F;
    VanishStays(S.m, S.F[i], S.F[i + 1], w, p);
  }

  lemma SourceMet(R: Run, S: Run, k: nat, u: PortRef)
    requires Race(R, S) && k < |S.F| && Feeds(R, k, u)
    ensures Met(R, R.mid.Target(u))
  {
    hide Race, Sound, Pair, Clean, Reduced, Anni, Born, Source, Loop;
    FastMidFacts(R, S);
    SlowPrincipal(R, S, k);
    MidAgents(R, S);
    AuxLeads(R.mid, R.c, R.d, u);
  }

  /** A wire from a clean commuting pair leads outside, unless it is a loop. */
  lemma AuxLeads(m: Net, c: AgentId, d: AgentId, u: PortRef)
    requires Sound(m) && Pair(m, c, d) && Clean(m, c, d) && !Anni(m, c, d) && Aux(m, c, d, u) && !Loop(m, u.id)
    ensures var t := m.Target(u); t.AgentPort? ==> m.IsPort(t) && t.id != c && t.id != d
  {
    var t := m.Target(u);
    if t.AgentPort? {
      assert m.IsPort(t) && m.Target(t) == u && t != u;
      assert t.port != 0 || (t.id != c && t.id != d);
    }
  }

  /** The `k`-th agent the slower order creates takes over the wire of `u`. */
  ghost predicate Feeds(R: Run, k: nat, u: PortRef) {
    && Pair(R.n, R.c, R.d) && k < |Born(R.n, R.c, R.d)| && Source(R.n, R.c, R.d, k) == u
    && u.AgentPort? && !Loop(R.mid, u.id)
  }

  lemma FeedsMet(R: Run, S: Run, k: nat, u: PortRef)
    requires Race(R, S) && k < |S.F| && Feeds(R, k, u)
    ensures Met(R, R.mid.Target(u)) && S.m.Target(AgentPort(S.F[k], 0)) == Later(R, S, R.mid.Target(u))
  {
    hide Race, Met, Later, Loop, Born, Source;
    SlowPrincipal(R, S, k);
    SourceMet(R, S, k, u);
  }

  lemma ThirdPrincipal(R: Run, S: Run, x: AgentId, w: Net, k: nat, u: PortRef)
    requires Third(R, S, x, w) && k < |S.F| && Feeds(R, k, u) && k != Twin(R, x) && k != Twin(R, x) + 1
    ensures Met(R, R.mid.Target(u)) && Race(R, S) && w.Target(AgentPort(S.F[k], 0)) == Later(R, S, R.mid.Target(u))
  {
    hide Third, Race, Shut, Twin, Reduced, Pair, FacingPair, Later, Met, Feeds, Born;
    ThirdParts(R, S, x, w);
    FeedsMet(R, S, k, u);
    LaterKind(R, S, R.mid.Target(u));
    SlowAgents(R, S);
    var i := Twin(R, x);
    assert S.F[i] in S.F && S.F[i + 1] in S.F && S.F[k] in S.F;
    VanishStays(S.m, S.F[i], S.F[i + 1], w, AgentPort(S.F[k], 0));
  }

  ghost predicate CleanPair(m: Net, e: AgentId, f: AgentId) {
    Pair(m, e, f) && Clean(m, e, f)
  }

  /** The extra pair can always be reduced. */
  lemma TwinsClean(R: Run, S: Run, x: AgentId)
    requires Race(R, S) && Shut(R, S, x)
    ensures Twin(R, x) + 1 < |S.F| && CleanPair(S.m, S.F[Twin(R, x)], S.F[Twin(R, x) + 1])
  {
    hide *;
    var i := Twin(R, x);
    TwinEven(R, x);
    TwinsFace(R, S, x);
    TwinsThere(R, S, x);
    var e, f := S.F[i], S.F[i + 1];
    if !S.m.agents[e].Era? {
      TwinApart(R, S, i, 1);
      TwinApart(R, S, i, 2);
    }
    ApartIsClean(S.m, e, f);
  }

  lemma TwinEven(R: Run, x: AgentId)
    ensures Twin(R, x) == 0 || Twin(R, x) == 2
  {}

  lemma ApartIsClean(m: Net, e: AgentId, f: AgentId)
    requires FacingPair(m, e, f) && m.agents[e] == m.agents[f]
    requires !m.agents[e].Era? ==> Elsewhere(m.Target(AgentPort(e, 1)), f) && Elsewhere(m.Target(AgentPort(e, 2)), f)
    ensures CleanPair(m, e, f)
  {}

  predicate Elsewhere(t: PortRef, f: AgentId) {
    t.AgentPort? && t.id != f
  }

  lemma TwinApart(R: Run, S: Run, i: nat, j: nat)
    requires Race(R, S) && i + 1 < |S.F| && (i == 0 || i == 2) && 1 <= j <= 2
    requires S.F[i] in S.m.agents && !S.m.agents[S.F[i]].Era?
    ensures Elsewhere(S.m.Target(AgentPort(S.F[i], j)), S.F[i + 1])
  {
    hide Race, Reduced, Loop, Source, Born, Inner, Pair;
    RacePairs(R, S);
    SlowAgents(R, S);
    SlowInner(R, S, i, j);
    InnerElsewhere(R.n, R.c, R.d, i, j);
  }

  lemma InnerElsewhere(n: Net, c: AgentId, d: AgentId, i: nat, j: nat)
    requires Pair(n, c, d) && i < |Born(n, c, d)| && (i == 0 || i == 2) && 1 <= j <= 2
    ensures Inner(n, c, d, i, j).0 != i + 1
  {}

  // -------------------------------------------- the slower order rejoins the faster one

  /** With a loop on one agent and nothing, or another loop, on the other, the step after
      the annihilation creates nothing. */
  lemma BornNone(R: Run, S: Run, x: AgentId)
    requires Race(R, S) && Shut(R, S, x) && |S.F| == 2
    ensures Pair(R.mid, R.c, R.d) && Born(R.mid, R.c, R.d) == []
    ensures forall t :: Aux(R.n, R.c, R.d, t) ==> Loop(R.mid, t.id)
  {
    hide Race, Loop, Sound, Clean, Reduced, Shut, Born, Aux;
    FastMidFacts(R, S);
    PairAfter(R, S);
    RacePairs(R, S);
    NotAnni(R, S);
    ShutLoops(R, S, R.c);
    ShutLoops(R, S, R.d);
    ShutPlace(R, S, x);
    BornTwo(R.n, R.c, R.d);
    NoneBorn(R.mid, R.c, R.d);
  }

  lemma ShutPlace(R: Run, S: Run, x: AgentId)
    requires Race(R, S) && Shut(R, S, x)
    ensures x == R.c || x == R.d
    ensures R.n.IsPort(AgentPort(x, 1))
  {
    ShutLoops(R, S, x);
    hide Race;
  }

  /** Two agents are created by an erasure, or with a loop on one side. */
  lemma BornTwo(n: Net, c: AgentId, d: AgentId)
    requires Pair(n, c, d) && !Anni(n, c, d) && |Born(n, c, d)| == 2
    ensures !n.agents[c].Era? && (n.agents[d].Era? || Loop(n, c) || Loop(n, d))
  {
    hide Loop;
  }

  lemma NoneBorn(m: Net, c: AgentId, d: AgentId)
    requires Pair(m, c, d) && !Anni(m, c, d) && Loop(m, c) && (m.agents[d].Era? || Loop(m, d))
    ensures Born(m, c, d) == [] && forall t :: Aux(m, c, d, t) ==> Loop(m, t.id)
  {
    hide Loop;
  }

  /** `w` has the agents of `m` apart from the pair. */
  ghost predicate Without(m: Net, c: AgentId, d: AgentId, w: Net) {
    && (forall x :: x in w.agents <==> Survives(m, c, d, x))
    && (forall x :: x in w.agents && x in m.agents ==> w.agents[x] == m.agents[x] && x < w.arena)
  }

  lemma VanishIsStep(m: Net, c: AgentId, d: AgentId, w: Net)
    requires Pair(m, c, d) && Born(m, c, d) == [] && !Anni(m, c, d) && Without(m, c, d, w)
    requires forall p: PortRef :: p.AgentPort? && m.IsPort(p) && Survives(m, c, d, p.id) ==> w.Target(p) == m.Target(p)
    ensures Reduced(m, c, d, [], w)
  {}

  lemma EmptyAgents(R: Run, S: Run, x: AgentId, w: Net)
    requires Third(R, S, x, w) && |S.F| == 2
    ensures Without(R.mid, R.c, R.d, w)
  {
    hide Third, Race, Shut, Reduced, Pair, FacingPair, Twin, Born;
    ThirdParts(R, S, x, w);
    MidAgents(R, S);
    SlowAgents(R, S);
    ThirdAgents(R, S, x, w);
    assert forall y :: y in S.F ==> y == S.F[0] || y == S.F[1];
  }

  lemma EmptyWire(R: Run, S: Run, x: AgentId, w: Net, p: PortRef)
    requires Third(R, S, x, w) && |S.F| == 2 && R.mid.IsPort(p) && Survives(R.mid, R.c, R.d, p.id)
    ensures w.Target(p) == R.mid.Target(p)
  {
    hide Third, Race, Shut, Reduced, Pair, FacingPair, Later, Born, Loop, Twin, Aux;
    ThirdParts(R, S, x, w);
    BornNone(R, S, x);
    assert Bystander(R, p) by { MidAgents(R, S); }
    ThirdBystander(R, S, x, w, p);
    LaterKind(R, S, R.mid.Target(p));
    if Aux(R.n, R.c, R.d, R.mid.Target(p)) { MetAux(R, R.mid.Target(p)); }
  }

  lemma MetAux(R: Run, t: PortRef)
    requires Met(R, t) && Aux(R.n, R.c, R.d, t)
    ensures !Loop(R.mid, t.id)
  {}

  lemma RejoinedEmpty(R: Run, S: Run, x: AgentId, w: Net)
    requires Third(R, S, x, w) && |S.F| == 2
    ensures Pair(R.mid, R.c, R.d) && Reduced(R.mid, R.c, R.d, [], w)
  {
    hide *;
    ThirdParts(R, S, x, w);
    BornNone(R, S, x);
    FastMidFacts(R, S);
    EmptyAgents(R, S, x, w);
    forall p: PortRef | p.AgentPort? && R.mid.IsPort(p) && Survives(R.mid, R.c, R.d, p.id) ensures w.Target(p) == R.mid.Target(p) {
      EmptyWire(R, S, x, w, p);
    }
    VanishIsStep(R.mid, R.c, R.d, w);
  }

  /** A duplicator facing a constructor, and the loops they carry. */
  ghost predicate Commuting(m: Net, c: AgentId, d: AgentId, loopC: bool, loopD: bool) {
    Pair(m, c, d) && m.agents[c].Con? && m.agents[d].Dup? && Loop(m, c) == loopC && Loop(m, d) == loopD
  }

  lemma BornFull(n: Net, c: AgentId, d: AgentId)
    requires Commuting(n, c, d, false, false)
    ensures Born(n, c, d) == [Dup, Dup, Con, Con] && !Anni(n, c, d)
    ensures Source(n, c, d, 0) == AgentPort(c, 1) && Source(n, c, d, 1) == AgentPort(c, 2)
    ensures Source(n, c, d, 2) == AgentPort(d, 1) && Source(n, c, d, 3) == AgentPort(d, 2)
    ensures forall t :: Aux(n, c, d, t) ==> Heir(n, c, d, t) == (if t.id == c then t.port - 1 else t.port + 1) < 4
  {
    hide Loop;
  }

  /** With a loop on the constructor only, two looped constructors remain. */
  lemma BornHalf(m: Net, c: AgentId, d: AgentId)
    requires Commuting(m, c, d, true, false)
    ensures Born(m, c, d) == [Con, Con] && !Anni(m, c, d)
    ensures Source(m, c, d, 0) == AgentPort(d, 1) && Source(m, c, d, 1) == AgentPort(d, 2)
    ensures forall t :: Aux(m, c, d, t) ==> Heir(m, c, d, t) == t.port - 1 < 2
    ensures forall k, j :: 0 <= k < 2 && 1 <= j <= 2 ==> Inner(m, c, d, k, j) == (k, 3 - j)
  {
    hide Loop;
  }

  /** Four agents were created, so no loop was there before. */
  lemma FullBefore(R: Run, S: Run)
    requires Race(R, S) && |S.F| == 4
    ensures Commuting(R.n, R.c, R.d, false, false)
    ensures Commuting(R.mid, R.c, R.d, Shut(R, S, R.c), Shut(R, S, R.d))
  {
    FastMidFacts(R, S);
    PairAfter(R, S);
    ShutLoops(R, S, R.c);
    ShutLoops(R, S, R.d);
    RacePairs(R, S);
    hide Race, Loop, Sound, Clean, Reduced, Shut;
  }

  ghost predicate HalfCase(R: Run, S: Run) {
    Race(R, S) && |S.F| == 4 && Shut(R, S, R.c) && !Shut(R, S, R.d)
  }

  lemma HalfPlace(R: Run, S: Run, t: PortRef)
    requires HalfCase(R, S) && Met(R, t)
    ensures Race(R, S) && Pair(R.mid, R.c, R.d) && Later(R, S, t) == Follow(R.mid, R.c, R.d, [S.F[2], S.F[3]], t)
  {
    hide Race, Shut, Born, Later, Source, Inner, Heir, Met, Pair, Loop;
    FullBefore(R, S);
    BornHalf(R.mid, R.c, R.d);
    BornFull(R.n, R.c, R.d);
    LaterKind(R, S, t);
    AuxSame(R, S, t);
    if Aux(R.n, R.c, R.d, t) {
      MetAux(R, t);
      HeirThere(R, S, t);
      assert t.id == R.d && (t.port == 1 || t.port == 2);
    }
  }

  lemma AuxSame(R: Run, S: Run, t: PortRef)
    requires Race(R, S)
    ensures Aux(R.mid, R.c, R.d, t) == Aux(R.n, R.c, R.d, t)
  {
    FastMidFacts(R, S);
    hide Race, Aux;
  }

  lemma TwinOfC(R: Run, S: Run)
    requires Race(R, S)
    ensures Twin(R, R.c) == 0
  {}

  lemma HalfAgents(R: Run, S: Run, w: Net)
    requires Third(R, S, R.c, w) && HalfCase(R, S)
    ensures forall y :: y in w.agents <==> Survives(R.mid, R.c, R.d, y) || y in [S.F[2], S.F[3]]
    ensures forall y :: y in w.agents ==> y in S.m.agents && w.agents[y] == S.m.agents[y] && y < w.arena
    ensures S.F[2] in w.agents && S.F[3] in w.agents && w.agents[S.F[2]].Con? && w.agents[S.F[3]].Con?
    ensures forall y :: Survives(R.mid, R.c, R.d, y) ==> y in w.agents && w.agents[y] == R.mid.agents[y]
    ensures S.F[2] != S.F[3] && !Survives(R.mid, R.c, R.d, S.F[2]) && !Survives(R.mid, R.c, R.d, S.F[3])
  {
    hide Third, Race, Shut, Reduced, Pair, FacingPair, Twin, Born, Loop;
    assert Twin(R, R.c) == 0 by { TwinOfC(R, S); }
    ThirdParts(R, S, R.c, w);
    FullBefore(R, S);
    BornFull(R.n, R.c, R.d);
    MidAgents(R, S);
    SlowAgents(R, S);
    ThirdAgents(R, S, R.c, w);
    assert S.F[2] in S.F && S.F[3] in S.F;
    assert forall y :: y in S.F ==> y == S.F[0] || y == S.F[1] || y == S.F[2] || y == S.F[3];
  }

  lemma HalfInner(R: Run, S: Run, w: Net, k: nat, j: nat)
    requires Third(R, S, R.c, w) && |S.F| == 4 && 2 <= k < 4 && 1 <= j <= 2
    ensures w.Target(AgentPort(S.F[k], j)) == AgentPort(S.F[k], 3 - j)
  {
    hide *;
    FullParts(R, S, w);
    var e, f := S.F[0], S.F[1];
    HalfInnerBefore(R, S, k, 1);
    HalfInnerBefore(R, S, k, 2);
    DupPass(S.m, e, f, w, S.F[k], k - 1, j);
  }

  lemma FullParts(R: Run, S: Run, w: Net)
    requires Third(R, S, R.c, w) && |S.F| == 4
    ensures Race(R, S) && Shut(R, S, R.c) && Twin(R, R.c) == 0
    ensures Pair(S.m, S.F[0], S.F[1]) && Reduced(S.m, S.F[0], S.F[1], [], w)
  {
    ThirdParts(R, S, R.c, w);
    TwinOfC(R, S);
    hide Race, Shut, Reduced, Twin, Pair;
  }

  lemma HalfParts(R: Run, S: Run, w: Net)
    requires Third(R, S, R.c, w) && HalfCase(R, S)
    ensures Race(R, S) && |S.F| == 4 && Shut(R, S, R.c) && !Shut(R, S, R.d) && Twin(R, R.c) == 0
  {
    FullParts(R, S, w);
    hide Race, Shut, Reduced, Twin, Pair;
  }

  /** The wires of a new constructor before the extra step. */
  lemma HalfInnerBefore(R: Run, S: Run, k: nat, j: nat)
    requires Race(R, S) && |S.F| == 4 && 2 <= k < 4 && 1 <= j <= 2
    ensures S.m.IsPort(AgentPort(S.F[k], j)) && S.F[k] != S.F[0] && S.F[k] != S.F[1]
    ensures S.m.Target(AgentPort(S.F[k], j)) == AgentPort(S.F[j - 1], k - 1)
    ensures S.m.Target(AgentPort(S.F[j - 1], k - 1)) == AgentPort(S.F[k], j)
    ensures S.F[0] in S.m.agents && S.F[1] in S.m.agents && S.m.agents[S.F[0]].Dup? && S.m.agents[S.F[1]].Dup?
  {
    hide Race, Born, Source, Reduced, Pair, Loop;
    FullBefore(R, S);
    BornFull(R.n, R.c, R.d);
    SlowAgents(R, S);
    assert S.F[k] in S.F && S.F[0] in S.F && S.F[1] in S.F;
    SlowInner(R, S, k, j);
    SlowInner(R, S, j - 1, k - 1);
  }

  /** Two wires from `x` into a pair of duplicators, at the same port of each, are joined. */
  lemma DupPass(m: Net, e: AgentId, f: AgentId, w: Net, x: AgentId, i: nat, j: nat)
    requires Pair(m, e, f) && Reduced(m, e, f, [], w) && m.agents[e].Dup? && m.agents[f].Dup?
    requires x != e && x != f && m.IsPort(AgentPort(x, 1)) && m.IsPort(AgentPort(x, 2)) && 1 <= i <= 2 && 1 <= j <= 2
    requires m.Target(AgentPort(x, 1)) == AgentPort(e, i) && m.Target(AgentPort(e, i)) == AgentPort(x, 1)
    requires m.Target(AgentPort(x, 2)) == AgentPort(f, i) && m.Target(AgentPort(f, i)) == AgentPort(x, 2)
    ensures w.Target(AgentPort(x, j)) == AgentPort(x, 3 - j)
  {
    assert j == 1 || j == 2;
    assert w.Target(AgentPort(x, j)) == Follow(m, e, f, [], m.Target(AgentPort(x, j)));
  }

  lemma HalfPrincipal(R: Run, S: Run, w: Net, k: nat)
    requires Third(R, S, R.c, w) && HalfCase(R, S) && k < 2
    ensures Pair(R.mid, R.c, R.d) && k < |Born(R.mid, R.c, R.d)|
    ensures w.Target(AgentPort(S.F[k + 2], 0))
         == Follow(R.mid, R.c, R.d, [S.F[2], S.F[3]], R.mid.Target(Source(R.mid, R.c, R.d, k)))
  {
    hide Third, HalfCase, Race, Shut, Twin, Born, Source, Follow, Reduced, Loop, Met, Later;
    HalfParts(R, S, w);
    FullBefore(R, S);
    BornHalf(R.mid, R.c, R.d);
    BornFull(R.n, R.c, R.d);
    assert k == 0 || k == 1;
    ThirdPrincipal(R, S, R.c, w, k + 2, AgentPort(R.d, k + 1));
    HalfPlace(R, S, R.mid.Target(AgentPort(R.d, k + 1)));
  }

  lemma HalfBystander(R: Run, S: Run, w: Net, p: PortRef)
    requires Third(R, S, R.c, w) && HalfCase(R, S) && R.mid.IsPort(p) && Survives(R.mid, R.c, R.d, p.id)
    ensures Pair(R.mid, R.c, R.d) && w.Target(p) == Follow(R.mid, R.c, R.d, [S.F[2], S.F[3]], R.mid.Target(p))
  {
    hide Third, HalfCase, Race, Shut, Twin, Born, Follow, Reduced, Loop, Met, Later;
    HalfParts(R, S, w);
    assert Bystander(R, p) by { MidAgents(R, S); }
    ThirdBystander(R, S, R.c, w, p);
    HalfPlace(R, S, R.mid.Target(p));
  }

  /** Reducing the extra pair of duplicators gives what the faster order gives. */
  lemma RejoinedHalf(R: Run, S: Run, w: Net)
    requires Third(R, S, R.c, w) && HalfCase(R, S)
    ensures Pair(R.mid, R.c, R.d) && Reduced(R.mid, R.c, R.d, [S.F[2], S.F[3]], w)
  {
    hide Third, HalfCase, Race, Shut, Twin, Born, Follow, Reduced, Loop, Met, Later, Source, Inner, Pair;
    HalfParts(R, S, w);
    var H := [S.F[2], S.F[3]];
    FullBefore(R, S);
    BornHalf(R.mid, R.c, R.d);
    HalfAgents(R, S, w);
    forall k: nat | k < 2 ensures HalfNew(R.mid, R.c, R.d, H, w, k) {
      HalfPrincipal(R, S, w, k);
      HalfInner(R, S, w, k + 2, 1);
      HalfInner(R, S, w, k + 2, 2);
    }
    forall p: PortRef | p.AgentPort? && R.mid.IsPort(p) && Survives(R.mid, R.c, R.d, p.id)
      ensures w.Target(p) == Follow(R.mid, R.c, R.d, H, R.mid.Target(p))
    {
      HalfBystander(R, S, w, p);
    }
    HalfIsStep(R.mid, R.c, R.d, H, w);
  }

  /** The wires of the `k`-th of two new agents, each of them looped. */
  ghost predicate HalfNew(m: Net, c: AgentId, d: AgentId, H: seq<AgentId>, w: Net, k: nat) {
    && Pair(m, c, d) && k < |Born(m, c, d)| && k < |H|
    && w.Target(AgentPort(H[k], 0)) == Follow(m, c, d, H, m.Target(Source(m, c, d, k)))
    && w.Target(AgentPort(H[k], 1)) == AgentPort(H[k], 2) && w.Target(AgentPort(H[k], 2)) == AgentPort(H[k], 1)
  }

  lemma HalfIsStep(m: Net, c: AgentId, d: AgentId, H: seq<AgentId>, w: Net)
    requires Commuting(m, c, d, true, false) && |H| == 2 && H[0] != H[1]
    requires forall y :: y in w.agents <==> Survives(m, c, d, y) || y in H
    requires forall y :: y in w.agents ==> y < w.arena
    requires H[0] in w.agents && H[1] in w.agents && w.agents[H[0]].Con? && w.agents[H[1]].Con?
    requires forall y :: Survives(m, c, d, y) ==> y in w.agents && w.agents[y] == m.agents[y]
    requires !Survives(m, c, d, H[0]) && !Survives(m, c, d, H[1])
    requires HalfNew(m, c, d, H, w, 0) && HalfNew(m, c, d, H, w, 1)
    requires forall p: PortRef :: p.AgentPort? && m.IsPort(p) && Survives(m, c, d, p.id) ==>
      w.Target(p) == Follow(m, c, d, H, m.Target(p))
    ensures Reduced(m, c, d, H, w)
  {
    hide Follow, Source, Loop, Inner, Born;
    BornHalf(m, c, d);
  }

  // ------------------------------------------------------------------ both loops closed

  /** With both loops closed, the two agents that took over the wires of `d` face each other
      after the extra step, both looped. */
  lemma FourthPair(R: Run, S: Run, w: Net)
    requires Third(R, S, R.c, w) && |S.F| == 4 && Shut(R, S, R.d)
    ensures CleanPair(w, S.F[2], S.F[3]) && FacingPair(w, S.F[2], S.F[3])
  {
    hide *;
    FullParts(R, S, w);
    var e, f := S.F[2], S.F[3];
    TwinOfD(R, S);
    TwinTarget(R, S, R.d, 1);
    TwinTarget(R, S, R.d, 2);
    FourthThere(R, S, w);
    PrincipalStays(R, S, w, e, f);
    PrincipalStays(R, S, w, f, e);
    FacingTwins(w, e, f);
    HalfInner(R, S, w, 2, 1);
    HalfInner(R, S, w, 2, 2);
    ElsewhereAt(AgentPort(e, 2), f);
    ElsewhereAt(AgentPort(e, 1), f);
    ApartIsClean(w, e, f);
  }

  lemma ElsewhereAt(t: PortRef, f: AgentId)
    requires t.AgentPort? && t.id != f
    ensures Elsewhere(t, f)
  {}

  lemma TwinOfD(R: Run, S: Run)
    requires Race(R, S) && |S.F| == 4
    ensures Twin(R, R.d) == 2
  {
    FullBefore(R, S);
    RacePairs(R, S);
    hide Race, Pair, Sound, Clean, Reduced, Loop;
  }

  lemma FourthThere(R: Run, S: Run, w: Net)
    requires Third(R, S, R.c, w) && |S.F| == 4
    ensures forall y :: y in w.agents <==> SurvivesBoth(R.n, R.a, R.b, R.c, R.d, y) || y == S.F[2] || y == S.F[3]
    ensures forall y :: y in w.agents ==> y < w.arena
    ensures S.F[2] in w.agents && S.F[3] in w.agents && w.agents[S.F[2]].Con? && w.agents[S.F[3]].Con?
    ensures forall y :: SurvivesBoth(R.n, R.a, R.b, R.c, R.d, y) ==> y in w.agents && y in R.n.agents && w.agents[y] == R.n.agents[y]
    ensures forall i, j :: 0 <= i < j < |S.F| ==> S.F[i] != S.F[j]
    ensures forall y :: y in S.F ==> !SurvivesBoth(R.n, R.a, R.b, R.c, R.d, y)
  {
    hide Third, Race, Shut, Reduced, Pair, FacingPair, Twin, Born, Loop;
    FullParts(R, S, w);
    FullBefore(R, S);
    BornFull(R.n, R.c, R.d);
    SlowAgents(R, S);
    ThirdAgents(R, S, R.c, w);
    assert S.F[0] in S.F && S.F[1] in S.F && S.F[2] in S.F && S.F[3] in S.F;
    assert forall y :: y in S.F ==> y == S.F[0] || y == S.F[1] || y == S.F[2] || y == S.F[3];
  }

  lemma PrincipalStays(R: Run, S: Run, w: Net, e: AgentId, f: AgentId)
    requires Third(R, S, R.c, w) && |S.F| == 4 && e in w.agents && S.m.Target(AgentPort(e, 0)) == AgentPort(f, 0)
    ensures w.Target(AgentPort(e, 0)) == AgentPort(f, 0)
  {
    hide Third, Race, Shut, Reduced, Pair, FacingPair, Twin;
    FullParts(R, S, w);
    VanishAgents(S.m, S.F[0], S.F[1], w);
    VanishStays(S.m, S.F[0], S.F[1], w, AgentPort(e, 0));
  }

  lemma BothLooped(R: Run, S: Run)
    requires Race(R, S) && |S.F| == 4 && Shut(R, S, R.c) && Shut(R, S, R.d)
    ensures Pair(R.mid, R.c, R.d) && Born(R.mid, R.c, R.d) == [] && !Anni(R.mid, R.c, R.d)
    ensures forall t :: Aux(R.n, R.c, R.d, t) ==> Loop(R.mid, t.id)
  {
    hide Race, Shut, Loop;
    FullBefore(R, S);
  }

  /** Two further steps: first the pair that replaced `c`, then the one that replaced `d`. */
  ghost predicate Fourth(R: Run, S: Run, w: Net, v: Net) {
    && Third(R, S, R.c, w) && |S.F| == 4 && Shut(R, S, R.d)
    && Pair(w, S.F[2], S.F[3]) && Reduced(w, S.F[2], S.F[3], [], v)
  }

  lemma BothWire(R: Run, S: Run, w: Net, v: Net, p: PortRef)
    requires Fourth(R, S, w, v) && R.mid.IsPort(p) && Survives(R.mid, R.c, R.d, p.id)
    ensures v.Target(p) == R.mid.Target(p)
  {
    hide Third, Race, Shut, Reduced, Pair, FacingPair, Later, Born, Loop, Twin, Met;
    FullParts(R, S, w);
    BothLooped(R, S);
    assert Bystander(R, p) by { MidAgents(R, S); }
    ThirdBystander(R, S, R.c, w, p);
    LaterKind(R, S, R.mid.Target(p));
    if Aux(R.n, R.c, R.d, R.mid.Target(p)) { MetAux(R, R.mid.Target(p)); }
    FourthThere(R, S, w);
    assert S.F[2] in S.F && S.F[3] in S.F;
    VanishStays(w, S.F[2], S.F[3], v, p);
  }

  lemma BothAgents(R: Run, S: Run, w: Net, v: Net)
    requires Fourth(R, S, w, v)
    ensures Without(R.mid, R.c, R.d, v)
  {
    hide Third, Race, Shut, Reduced, Pair, FacingPair, Twin, Born, Loop;
    FullParts(R, S, w);
    MidAgents(R, S);
    FourthThere(R, S, w);
    assert S.F[2] in S.F && S.F[3] in S.F;
    VanishAgents(w, S.F[2], S.F[3], v);
  }

  lemma RejoinedBoth(R: Run, S: Run, w: Net, v: Net)
    requires Fourth(R, S, w, v)
    ensures Pair(R.mid, R.c, R.d) && Reduced(R.mid, R.c, R.d, [], v)
  {
    hide *;
    FourthParts(R, S, w, v);
    FullParts(R, S, w);
    BothLooped(R, S);
    BothAgents(R, S, w, v);
    forall p: PortRef | p.AgentPort? && R.mid.IsPort(p) && Survives(R.mid, R.c, R.d, p.id) ensures v.Target(p) == R.mid.Target(p) {
      BothWire(R, S, w, v, p);
    }
    VanishIsStep(R.mid, R.c, R.d, v);
  }

  lemma FourthParts(R: Run, S: Run, w: Net, v: Net)
    requires Fourth(R, S, w, v)
    ensures Third(R, S, R.c, w) && |S.F| == 4 && Race(R, S) && Shut(R, S, R.d)
  {}

  // -------------------------------------- a loop on a duplicator facing a constructor

  ghost function Loops(m: Net): set<AgentId> {
    set x | x in m.agents && Loop(m, x)
  }

  lemma LoopsImage(n: Net, m: Net, f: B.Mapping)
    requires Isomorphism(n, m, f) && Sound(n)
    ensures |Loops(n)| == |Loops(m)|
  {
    var g: B.Mapping := map x | x in f && x in Loops(n) :: f[x];
    forall x | x in n.agents ensures x in f && f[x] in m.agents && Loop(m, f[x]) == Loop(n, x) {
      Transport.AgentImage(n, m, f, x);
      Transport.LoopImage(n, m, f, x);
    }
    forall y | y in Loops(m) ensures y in g.Values {
      var x := Transport.ImageOnto(n, m, f, y);
      assert g[x] == y;
    }
    forall x, y | x in g && y in g && x != y ensures g[x] != g[y] { Transport.ImagesApart(n, m, f, x, y); }
    hide Isomorphism, Loop, Sound;
    assert g.Keys == Loops(n) && g.Values == Loops(m);
    InjectiveSize(g);
  }

  /** A loop is closed on a duplicator that faces a constructor without one. */
  ghost predicate Stubborn(R: Run, S: Run) {
    Race(R, S) && |S.F| == 4 && Shut(R, S, R.d) && !Shut(R, S, R.c)
  }

  lemma StubbornParts(R: Run, S: Run, w: Net)
    requires Stubborn(R, S) && Third(R, S, R.d, w)
    ensures Race(R, S) && |S.F| == 4 && Shut(R, S, R.d) && !Shut(R, S, R.c) && Twin(R, R.d) == 2
    ensures Pair(S.m, S.F[2], S.F[3]) && Reduced(S.m, S.F[2], S.F[3], [], w)
  {
    ThirdParts(R, S, R.d, w);
    TwinOfD(R, S);
    hide Race, Shut, Reduced, Twin, Pair;
  }

  /** Two constructors are annihilated crosswise. */
  lemma ConPass(m: Net, e: AgentId, f: AgentId, w: Net, x: AgentId, y: AgentId, i: nat)
    requires Pair(m, e, f) && Reduced(m, e, f, [], w) && m.agents[e].Con? && m.agents[f].Con? && 1 <= i <= 2
    requires x != e && x != f && m.IsPort(AgentPort(x, 1)) && y != e && y != f
    requires m.Target(AgentPort(x, 1)) == AgentPort(e, i) && m.Target(AgentPort(f, 3 - i)) == AgentPort(y, 2)
    ensures w.Target(AgentPort(x, 1)) == AgentPort(y, 2)
  {
    assert w.Target(AgentPort(x, 1)) == Follow(m, e, f, [], m.Target(AgentPort(x, 1)));
  }

  /** The two new duplicators end up wired to each other, not to themselves. */
  lemma StubbornInner(R: Run, S: Run, w: Net, k: nat)
    requires Stubborn(R, S) && Third(R, S, R.d, w) && k < 2
    ensures w.Target(AgentPort(S.F[k], 1)) == AgentPort(S.F[1 - k], 2) && S.F[k] != S.F[1 - k]
  {
    hide Race, Born, Source, Reduced, Pair, Loop, Stubborn, Third, Shut, Twin, Inner;
    StubbornParts(R, S, w);
    FullBefore(R, S);
    BornFull(R.n, R.c, R.d);
    SlowAgents(R, S);
    assert S.F[0] in S.F && S.F[1] in S.F && S.F[2] in S.F && S.F[3] in S.F;
    InnerFull(R.n, R.c, R.d);
    SlowInner(R, S, k, 1);
    SlowInner(R, S, 3, 2 - k);
    assert k == 0 || k == 1;
    ConPass(S.m, S.F[2], S.F[3], w, S.F[k], S.F[1 - k], k + 1);
  }

  lemma InnerFull(n: Net, c: AgentId, d: AgentId)
    requires Commuting(n, c, d, false, false)
    ensures Born(n, c, d) == [Dup, Dup, Con, Con]
    ensures forall k, j :: 0 <= k < 2 && 1 <= j <= 2 ==> Inner(n, c, d, k, j) == (j + 1, k + 1)
    ensures forall k, j :: 2 <= k < 4 && 1 <= j <= 2 ==> Inner(n, c, d, k, j) == (j - 1, k - 1)
  {}

  lemma FastWire(R: Run, S: Run, p: PortRef, q: PortRef)
    requires Race(R, S) && Bystander(R, p) && Bystander(R, q)
    ensures R.m.Target(p) == q <==> R.mid.Target(p) == q
  {
    hide Race, Met, Born, Heir, Loop, Reduced, Sound, Clean;
    FastTarget(R, S, p);
    FastMidFacts(R, S);
    FastAgents(R, S);
    AuxSame(R, S, q);
    assert forall k :: 0 <= k < |R.G| ==> R.G[k] in R.G;
  }

  lemma SlowWire(R: Run, S: Run, x: AgentId, w: Net, p: PortRef, q: PortRef)
    requires Third(R, S, x, w) && Bystander(R, p) && Bystander(R, q)
    ensures w.Target(p) == q <==> R.mid.Target(p) == q
  {
    hide Race, Third, Born, Heir, Loop, Reduced, Sound, Clean, Shut, Twin, FacingPair, Pair;
    ThirdParts(R, S, x, w);
    ThirdBystander(R, S, x, w, p);
    LaterKind(R, S, R.mid.Target(p));
    NewTargets(R, S, R.mid.Target(p), q);
  }

  lemma NewTargets(R: Run, S: Run, t: PortRef, q: PortRef)
    requires Race(R, S) && Bystander(R, q)
    ensures Later(R, S, t) == q <==> t == q
  {
    RacePairs(R, S);
    SlowAgents(R, S);
    hide Race, Born, Heir, Loop, Reduced, Sound, Clean, Pair;
    assert forall k :: 0 <= k < |S.F| ==> S.F[k] in S.F;
  }

  lemma SameLoops(R: Run, S: Run, x: AgentId, w: Net, y: AgentId)
    requires Third(R, S, x, w) && SurvivesBoth(R.n, R.a, R.b, R.c, R.d, y)
    ensures Loop(w, y) <==> Loop(R.m, y)
  {
    hide Race, Third, Born, Heir, Reduced, Sound, Clean, Shut, Twin, FacingPair, Pair;
    ThirdParts(R, S, x, w);
    ThirdAgents(R, S, x, w);
    FastAgents(R, S);
    SlowAgents(R, S);
    var u, v := AgentPort(y, 1), AgentPort(y, 2);
    if R.n.IsPort(u) {
      FastWire(R, S, u, v);
      FastWire(R, S, v, u);
      SlowWire(R, S, x, w, u, v);
      SlowWire(R, S, x, w, v, u);
    }
  }

  /** After the annihilation, the duplicator has a loop and the constructor none: two
      looped duplicators result. */
  lemma FastLooped(R: Run, S: Run)
    requires Stubborn(R, S)
    ensures R.G != [] && R.G[0] in R.m.agents && Loop(R.m, R.G[0])
    ensures !SurvivesBoth(R.n, R.a, R.b, R.c, R.d, R.G[0])
  {
    hide Race, Shut, Loop, Reduced, Inner;
    FullBefore(R, S);
    FastMidFacts(R, S);
    FastAgents(R, S);
    LoopedHalf(R.mid, R.c, R.d);
    assert R.G[0] in R.G;
    Transport.InnerTarget(R.mid, R.c, R.d, R.G, R.m, 0, 1);
    Transport.InnerTarget(R.mid, R.c, R.d, R.G, R.m, 0, 2);
    IsLoop(R.m, R.G[0]);
  }

  lemma LoopedHalf(m: Net, c: AgentId, d: AgentId)
    requires Commuting(m, c, d, false, true)
    ensures Born(m, c, d) == [Dup, Dup] && Inner(m, c, d, 0, 1) == (0, 2) && Inner(m, c, d, 0, 2) == (0, 1)
    ensures Source(m, c, d, 0) == AgentPort(c, 1) && Source(m, c, d, 1) == AgentPort(c, 2)
  {}

  lemma IsLoop(m: Net, x: AgentId)
    requires x in m.agents && m.agents[x].Dup?
    requires m.Target(AgentPort(x, 1)) == AgentPort(x, 2) && m.Target(AgentPort(x, 2)) == AgentPort(x, 1)
    ensures Loop(m, x)
  {}

  /** In the end the slower order has fewer looped agents. */
  lemma FewerLoops(R: Run, S: Run, w: Net)
    requires Stubborn(R, S) && Third(R, S, R.d, w)
    ensures Loops(w) < Loops(R.m)
  {
    hide Race, Third, Stubborn, Born, Reduced, Shut, Twin;
    StubbornParts(R, S, w);
    FastAgents(R, S);
    ThirdAgents(R, S, R.d, w);
    FastLooped(R, S);
    StubbornInner(R, S, w, 0);
    StubbornInner(R, S, w, 1);
    assert forall y :: y in S.F ==> y == S.F[0] || y == S.F[1] || y == S.F[2] || y == S.F[3];
    assert forall y :: y in w.agents && Loop(w, y) ==> SurvivesBoth(R.n, R.a, R.b, R.c, R.d, y);
    forall y | y in Loops(w) ensures y in Loops(R.m) { SameLoops(R, S, R.d, w, y); }
    assert R.G[0] in Loops(R.m) && R.G[0] !in Loops(w);
  }

  lemma NotRejoined(R: Run, S: Run, w: Net)
    requires Stubborn(R, S) && Third(R, S, R.d, w)
    ensures !Isomorphic(R.m, w)
  {
    hide Third, Stubborn, Race, Loops, Reduced, Isomorphism;
    FewerLoops(R, S, w);
    if f :| Isomorphism(R.m, w, f) {
      StubbornParts(R, S, w);
      FastSound(R, S);
      LoopsImage(R.m, w, f);
      SubsetOfEqualSize(Loops(w), Loops(R.m));
    }
  }

  lemma FastSound(R: Run, S: Run)
    requires Race(R, S)
    ensures Sound(R.m)
  {
    FastMidFacts(R, S);
    ReducedSound(R.mid, R.c, R.d, R.G, R.m);
  }

  // ------------------------------------------------------------------- when it rejoins

  /** How many agents the slower order created decides what is left. */
  lemma SlowCount(R: Run, S: Run, x: AgentId)
    requires Race(R, S) && Shut(R, S, x)
    ensures |S.F| == 2 || |S.F| == 4
    ensures x == R.d ==> (|S.F| == 4 <==> !Loop(R.n, R.c))
    ensures Shut(R, S, R.c) && Shut(R, S, R.d) ==> |S.F| == 4
  {
    PairAfter(R, S);
    RacePairs(R, S);
    NotAnni(R, S);
    ShutLoops(R, S, R.c);
    ShutLoops(R, S, R.d);
    hide Race, Sound, Clean, Reduced, Loop;
  }

  /** One loop closed, one further step in the slower order: it rejoins the faster one
      unless the loop is on a duplicator facing a constructor without one. */
  lemma OneLoop(R: Run, S: Run, x: AgentId, w: Net)
    requires Third(R, S, x, w) && !(Shut(R, S, R.c) && Shut(R, S, R.d))
    ensures Isomorphic(R.m, w) <==> !(x == R.d && !Loop(R.n, R.c))
  {
    hide Race, Third, Reduced, Isomorphic, Loop, Sound, Clean, Pair;
    ThirdParts(R, S, x, w);
    SlowCount(R, S, x);
    FastMidFacts(R, S);
    if |S.F| == 2 {
      RejoinedEmpty(R, S, x, w);
      Transport.SameStep(R.mid, R.c, R.d, R.G, R.m, [], w);
    } else if x == R.c {
      RejoinedHalf(R, S, w);
      Transport.SameStep(R.mid, R.c, R.d, R.G, R.m, [S.F[2], S.F[3]], w);
    } else {
      NotRejoined(R, S, w);
    }
  }

  /** Both loops closed: two further steps rejoin. */
  lemma TwoLoops(R: Run, S: Run, w: Net, v: Net)
    requires Fourth(R, S, w, v)
    ensures Isomorphic(R.m, v)
  {
    hide Race, Third, Fourth, Reduced, Isomorphic, Sound, Clean, Pair;
    FourthParts(R, S, w, v);
    FastMidFacts(R, S);
    RejoinedBoth(R, S, w, v);
    Transport.SameStep(R.mid, R.c, R.d, R.G, R.m, [], v);
  }
}
