/** A step does the same to isomorphic nets, whatever ids its new agents get. */
module Transport {
  import opened Nets
  import opened NetIsomorphism
  import opened Interaction
  import opened Backtracking
  import Confluence

  // ------------------------------------------------------------- isomorphisms, one fact at a time

  lemma AgentImage(n: Net, m: Net, f: Mapping, x: AgentId)
    requires Isomorphism(n, m, f) && x in n.agents
    ensures x in f && f[x] in m.agents && m.agents[f[x]] == n.agents[x]
  {}

  lemma ImagesApart(n: Net, m: Net, f: Mapping, x: AgentId, y: AgentId)
    requires Isomorphism(n, m, f) && x in n.agents && y in n.agents && x != y
    ensures x in f && y in f && f[x] != f[y]
  {}

  lemma ImageOnto(n: Net, m: Net, f: Mapping, y: AgentId) returns (x: AgentId)
    requires Isomorphism(n, m, f) && y in m.agents
    ensures x in n.agents && x in f && f[x] == y
  {
    assert y in f.Values;
    x :| x in f && f[x] == y;
  }

  lemma PortImage(n: Net, m: Net, f: Mapping, p: PortRef)
    requires Isomorphism(n, m, f) && n.IsPort(p)
    ensures p.id in f && MapPort(f, p) == AgentPort(f[p.id], p.port) && m.IsPort(MapPort(f, p))
    ensures m.Target(MapPort(f, p)) == MapPort(f, n.Target(p))
  {}

  /** An end of a wire: a port of a live agent or the interface. */
  predicate Endpoint(n: Net, r: PortRef) {
    r.FreePort? || n.IsPort(r)
  }

  lemma TargetLive(n: Net, p: PortRef)
    requires Sound(n) && n.IsPort(p)
    ensures Endpoint(n, n.Target(p))
  {}

  // ---------------------------------------------------------------- the pair and its image

  ghost predicate Facing(n: Net, m: Net, f: Mapping, a: AgentId, b: AgentId) {
    && Isomorphism(n, m, f) && Sound(n) && Sound(m) && Pair(n, a, b)
    && a in f && b in f && Pair(m, f[a], f[b])
  }

  lemma PairImage(n: Net, m: Net, f: Mapping, a: AgentId, b: AgentId)
    requires Isomorphism(n, m, f) && Sound(n) && Sound(m) && Pair(n, a, b)
    ensures Facing(n, m, f, a, b)
  {
    AgentImage(n, m, f, a);
    AgentImage(n, m, f, b);
    ImagesApart(n, m, f, a, b);
    PortImage(n, m, f, AgentPort(a, 0));
    PortImage(n, m, f, AgentPort(b, 0));
    hide Isomorphism, Sound;
  }

  lemma FacingParts(n: Net, m: Net, f: Mapping, a: AgentId, b: AgentId)
    requires Facing(n, m, f, a, b)
    ensures a in f && b in f
    ensures Isomorphism(n, m, f) && Sound(n) && Sound(m) && Pair(n, a, b) && Pair(m, f[a], f[b])
    ensures a in n.agents && b in n.agents && f[a] in m.agents && f[b] in m.agents
    ensures m.agents[f[a]] == n.agents[a] && m.agents[f[b]] == n.agents[b]
    ensures Anni(m, f[a], f[b]) == Anni(n, a, b)
  {}

  lemma AuxImage(n: Net, m: Net, f: Mapping, a: AgentId, b: AgentId, r: PortRef)
    requires Facing(n, m, f, a, b) && Endpoint(n, r)
    ensures Aux(m, f[a], f[b], MapPort(f, r)) == Aux(n, a, b, r)
  {
    FacingParts(n, m, f, a, b);
    hide Facing, Isomorphism, Pair, Sound;
    if r.AgentPort? {
      PortImage(n, m, f, r);
      if r.id != a { ImagesApart(n, m, f, r.id, a); }
      if r.id != b { ImagesApart(n, m, f, r.id, b); }
    }
  }

  lemma LoopImage(n: Net, m: Net, f: Mapping, x: AgentId)
    requires Isomorphism(n, m, f) && Sound(n) && x in n.agents
    ensures x in f && Loop(m, f[x]) == Loop(n, x)
  {
    AgentImage(n, m, f, x);
    var u, v := AgentPort(x, 1), AgentPort(x, 2);
    if n.IsPort(u) {
      PortImage(n, m, f, u);
      PortImage(n, m, f, v);
      TargetLive(n, u);
      TargetLive(n, v);
      hide Isomorphism, Sound;
      if Loop(m, f[x]) {
        PortBack(n, m, f, n.Target(u), v);
        PortBack(n, m, f, n.Target(v), u);
      }
    }
  }

  lemma PortBack(n: Net, m: Net, f: Mapping, r: PortRef, s: PortRef)
    requires Isomorphism(n, m, f) && Endpoint(n, r) && Endpoint(n, s) && MapPort(f, r) == MapPort(f, s)
    ensures r == s
  {
    if r.AgentPort? { PortImage(n, m, f, r); }
    if s.AgentPort? { PortImage(n, m, f, s); }
  }

  /** The step creates the same symbols, for the same ports, with the same wires between them. */
  lemma ShapeImage(n: Net, m: Net, f: Mapping, a: AgentId, b: AgentId)
    requires Facing(n, m, f, a, b)
    ensures Pair(n, a, b) && Pair(m, f[a], f[b]) && Born(m, f[a], f[b]) == Born(n, a, b)
    ensures forall k :: 0 <= k < |Born(n, a, b)| ==> Source(m, f[a], f[b], k) == MapPort(f, Source(n, a, b, k))
    ensures forall k, j :: 0 <= k < |Born(n, a, b)| && 1 <= j <= 2 ==> Inner(m, f[a], f[b], k, j) == Inner(n, a, b, k, j)
  {
    FacingParts(n, m, f, a, b);
    LoopImage(n, m, f, a);
    LoopImage(n, m, f, b);
    hide Facing, Isomorphism, Sound, Loop;
  }

  lemma HeirImage(n: Net, m: Net, f: Mapping, a: AgentId, b: AgentId, u: PortRef)
    requires Facing(n, m, f, a, b) && Aux(n, a, b, u)
    ensures Pair(n, a, b) && Pair(m, f[a], f[b]) && Aux(m, f[a], f[b], MapPort(f, u))
    ensures Heir(m, f[a], f[b], MapPort(f, u)) == Heir(n, a, b, u)
  {
    FacingParts(n, m, f, a, b);
    AuxImage(n, m, f, a, b, u);
    LoopImage(n, m, f, a);
    PortImage(n, m, f, u);
    ImagesApart(n, m, f, a, b);
    hide Facing, Isomorphism, Sound, Loop;
  }

  lemma AcrossImage(n: Net, m: Net, f: Mapping, a: AgentId, b: AgentId, u: PortRef)
    requires Facing(n, m, f, a, b) && Aux(n, a, b, u) && Anni(n, a, b)
    ensures Aux(m, f[a], f[b], MapPort(f, u)) && n.IsPort(Across(n, a, b, u))
    ensures Across(m, f[a], f[b], MapPort(f, u)) == MapPort(f, Across(n, a, b, u))
  {
    FacingParts(n, m, f, a, b);
    AuxImage(n, m, f, a, b, u);
    PortImage(n, m, f, u);
    ImagesApart(n, m, f, a, b);
    PortImage(n, m, f, Across(n, a, b, u));
    hide Facing, Isomorphism, Sound;
  }

  /** One passage through an annihilating pair. */
  lemma PassImage(n: Net, m: Net, f: Mapping, a: AgentId, b: AgentId, u: PortRef)
    requires Facing(n, m, f, a, b) && Aux(n, a, b, u) && Anni(n, a, b)
    ensures Aux(m, f[a], f[b], MapPort(f, u)) && Endpoint(n, n.Target(Across(n, a, b, u)))
    ensures m.Target(Across(m, f[a], f[b], MapPort(f, u))) == MapPort(f, n.Target(Across(n, a, b, u)))
  {
    FacingParts(n, m, f, a, b);
    hide Facing, Isomorphism, Sound, Across;
    AcrossImage(n, m, f, a, b, u);
    PortImage(n, m, f, Across(n, a, b, u));
    TargetLive(n, Across(n, a, b, u));
  }

  lemma EndImage(n: Net, m: Net, f: Mapping, a: AgentId, b: AgentId, r: PortRef)
    requires Facing(n, m, f, a, b) && Endpoint(n, r)
    ensures End(m, f[a], f[b], MapPort(f, r)) == MapPort(f, End(n, a, b, r)) && Endpoint(n, End(n, a, b, r))
  {
    FacingParts(n, m, f, a, b);
    hide Facing, Isomorphism, Sound, Across, Aux, Anni, Pair, MapPort, Endpoint;
    AuxImage(n, m, f, a, b, r);
    if Aux(n, a, b, r) && Anni(n, a, b) {
      PassImage(n, m, f, a, b, r);
      var s := n.Target(Across(n, a, b, r));
      AuxImage(n, m, f, a, b, s);
      if Aux(n, a, b, s) { PassImage(n, m, f, a, b, s); }
    }
  }

  // --------------------------------------------------------------------- the two results

  /** The same step in both nets: (a, b) and its image, creating `F` and `G`. */
  datatype Steps = Steps(n: Net, m: Net, f: Mapping, a: AgentId, b: AgentId,
                         F: seq<AgentId>, n': Net, G: seq<AgentId>, m': Net)

  ghost predicate Taken(T: Steps) {
    && Facing(T.n, T.m, T.f, T.a, T.b) && Clean(T.n, T.a, T.b)
    && Reduced(T.n, T.a, T.b, T.F, T.n') && Reduced(T.m, T.f[T.a], T.f[T.b], T.G, T.m')
  }

  ghost function Carry(T: Steps): Mapping {
    map x | x in T.n'.agents ::
      if x in T.F && Confluence.Index(T.F, x) < |T.G| then T.G[Confluence.Index(T.F, x)]
      else if x in T.f then T.f[x] else x
  }

  lemma NewLive(n: Net, a: AgentId, b: AgentId, F: seq<AgentId>, m: Net, k: nat)
    requires Pair(n, a, b) && Reduced(n, a, b, F, m) && k < |F|
    ensures |F| == |Born(n, a, b)| && F[k] in m.agents && m.agents[F[k]] == Born(n, a, b)[k]
    ensures !Survives(n, a, b, F[k])
    ensures Confluence.Index(F, F[k]) == k
  {}

  lemma OldLive(n: Net, a: AgentId, b: AgentId, F: seq<AgentId>, m: Net, x: AgentId)
    requires Pair(n, a, b) && Reduced(n, a, b, F, m) && Survives(n, a, b, x)
    ensures x in m.agents && x !in F && m.agents[x] == n.agents[x]
  {}

  lemma LiveCases(n: Net, a: AgentId, b: AgentId, F: seq<AgentId>, m: Net, x: AgentId)
    requires Pair(n, a, b) && Reduced(n, a, b, F, m) && x in m.agents
    ensures Survives(n, a, b, x) || (exists k: nat :: k < |F| && F[k] == x)
  {}

  lemma SurvivorImage(n: Net, m: Net, f: Mapping, a: AgentId, b: AgentId, x: AgentId)
    requires Facing(n, m, f, a, b) && x in n.agents
    ensures x in f && Survives(m, f[a], f[b], f[x]) == Survives(n, a, b, x)
  {
    FacingParts(n, m, f, a, b);
    AgentImage(n, m, f, x);
    if x != a { ImagesApart(n, m, f, x, a); }
    if x != b { ImagesApart(n, m, f, x, b); }
    hide Facing, Isomorphism, Sound;
  }

  lemma CarryNew(T: Steps, k: nat)
    requires Taken(T) && k < |T.F|
    ensures k < |T.G| && T.F[k] in Carry(T) && Carry(T)[T.F[k]] == T.G[k]
    ensures T.G[k] in T.m'.agents && T.F[k] in T.n'.agents && T.m'.agents[T.G[k]] == T.n'.agents[T.F[k]]
  {
    hide Reduced, Isomorphism, Sound, Clean, Facing;
    FacingParts(T.n, T.m, T.f, T.a, T.b);
    ShapeImage(T.n, T.m, T.f, T.a, T.b);
    NewLive(T.n, T.a, T.b, T.F, T.n', k);
    SameCount(T);
    NewLive(T.m, T.f[T.a], T.f[T.b], T.G, T.m', k);
    assert T.F[k] in T.F;
  }

  lemma SameCount(T: Steps)
    requires Taken(T)
    ensures |T.F| == |T.G|
  {
    hide Isomorphism, Sound, Clean, Facing;
    FacingParts(T.n, T.m, T.f, T.a, T.b);
    ShapeImage(T.n, T.m, T.f, T.a, T.b);
  }

  lemma CarryOld(T: Steps, x: AgentId)
    requires Taken(T) && Survives(T.n, T.a, T.b, x)
    ensures x in T.f && x in Carry(T) && Carry(T)[x] == T.f[x] && Survives(T.m, T.f[T.a], T.f[T.b], T.f[x])
    ensures x in T.n'.agents && T.f[x] in T.m'.agents && T.m'.agents[T.f[x]] == T.n'.agents[x]
  {
    hide Reduced, Isomorphism, Sound, Clean, Facing;
    FacingParts(T.n, T.m, T.f, T.a, T.b);
    OldLive(T.n, T.a, T.b, T.F, T.n', x);
    AgentImage(T.n, T.m, T.f, x);
    SurvivorImage(T.n, T.m, T.f, T.a, T.b, x);
    OldLive(T.m, T.f[T.a], T.f[T.b], T.G, T.m', T.f[x]);
  }

  lemma CarryAgent(T: Steps, x: AgentId)
    requires Taken(T) && x in T.n'.agents
    ensures var g := Carry(T); x in g && g[x] in T.m'.agents && T.m'.agents[g[x]] == T.n'.agents[x]
  {
    hide Reduced, Isomorphism, Sound, Clean, Facing, Taken, Carry;
    TakenParts(T);
    LiveCases(T.n, T.a, T.b, T.F, T.n', x);
    if Survives(T.n, T.a, T.b, x) {
      CarryOld(T, x);
    } else {
      var k: nat :| k < |T.F| && T.F[k] == x;
      CarryNew(T, k);
    }
  }

  lemma TakenParts(T: Steps)
    requires Taken(T)
    ensures Facing(T.n, T.m, T.f, T.a, T.b) && Clean(T.n, T.a, T.b) && T.a in T.f && T.b in T.f
    ensures Pair(T.n, T.a, T.b) && Pair(T.m, T.f[T.a], T.f[T.b])
    ensures Reduced(T.n, T.a, T.b, T.F, T.n') && Reduced(T.m, T.f[T.a], T.f[T.b], T.G, T.m')
  {}

  lemma NewApart(n: Net, a: AgentId, b: AgentId, F: seq<AgentId>, m: Net, i: nat, j: nat)
    requires Pair(n, a, b) && Reduced(n, a, b, F, m) && i < |F| && j < |F| && i != j
    ensures F[i] != F[j]
  {}

  lemma CarryApart(T: Steps, x: AgentId, y: AgentId)
    requires Taken(T) && x in T.n'.agents && y in T.n'.agents && x != y
    ensures var g := Carry(T); x in g && y in g && g[x] != g[y]
  {
    hide Reduced, Isomorphism, Sound, Clean, Facing, Taken, Carry;
    TakenParts(T);
    LiveCases(T.n, T.a, T.b, T.F, T.n', x);
    LiveCases(T.n, T.a, T.b, T.F, T.n', y);
    if Survives(T.n, T.a, T.b, x) && Survives(T.n, T.a, T.b, y) {
      CarryOld(T, x);
      CarryOld(T, y);
      FacingParts(T.n, T.m, T.f, T.a, T.b);
      ImagesApart(T.n, T.m, T.f, x, y);
    } else if Survives(T.n, T.a, T.b, x) {
      var k: nat :| k < |T.F| && T.F[k] == y;
      CarryOldNew(T, x, k);
    } else {
      var k: nat :| k < |T.F| && T.F[k] == x;
      if Survives(T.n, T.a, T.b, y) {
        CarryOldNew(T, y, k);
      } else {
        var l: nat :| l < |T.F| && T.F[l] == y;
        CarryNew(T, k);
        CarryNew(T, l);
        NewApart(T.m, T.f[T.a], T.f[T.b], T.G, T.m', k, l);
      }
    }
  }

  lemma CarryOldNew(T: Steps, x: AgentId, k: nat)
    requires Taken(T) && Survives(T.n, T.a, T.b, x) && k < |T.F|
    ensures var g := Carry(T); x in g && T.F[k] in g && g[x] != g[T.F[k]]
  {
    hide Reduced, Isomorphism, Sound, Clean, Facing, Taken, Carry;
    TakenParts(T);
    CarryOld(T, x);
    CarryNew(T, k);
    NewLive(T.m, T.f[T.a], T.f[T.b], T.G, T.m', k);
  }

  lemma CarryOnto(T: Steps, y: AgentId)
    requires Taken(T) && y in T.m'.agents
    ensures y in Carry(T).Values
  {
    hide Reduced, Isomorphism, Sound, Clean, Facing, Taken, Carry;
    TakenParts(T);
    FacingParts(T.n, T.m, T.f, T.a, T.b);
    LiveCases(T.m, T.f[T.a], T.f[T.b], T.G, T.m', y);
    if Survives(T.m, T.f[T.a], T.f[T.b], y) {
      var x := ImageOnto(T.n, T.m, T.f, y);
      SurvivorImage(T.n, T.m, T.f, T.a, T.b, x);
      CarryOld(T, x);
    } else {
      var k: nat :| k < |T.G| && T.G[k] == y;
      SameCount(T);
      CarryNew(T, k);
    }
  }

  lemma CarryKeys(T: Steps)
    ensures Carry(T).Keys == T.n'.agents.Keys
  {}

  lemma CarryBijection(T: Steps)
    requires Taken(T)
    ensures AgentBijection(T.n', T.m', Carry(T))
  {
    var g := Carry(T);
    CarryKeys(T);
    hide Taken, Carry;
    forall x | x in g ensures g[x] in T.m'.agents && T.m'.agents[g[x]] == T.n'.agents[x] { CarryAgent(T, x); }
    forall x, y | x in g && y in g && x != y ensures g[x] != g[y] { CarryApart(T, x, y); }
    forall y ensures y in g.Values <==> y in T.m'.agents {
      if y in T.m'.agents { CarryOnto(T, y); }
    }
  }

  // ------------------------------------------------------------------------------ the wires

  /** Where a wire leads after the step: a survivor, an heir or the interface. */
  ghost predicate Settled(n: Net, a: AgentId, b: AgentId, s: PortRef)
    requires Pair(n, a, b)
  {
    || s.FreePort? || (n.IsPort(s) && Survives(n, a, b, s.id))
    || (Aux(n, a, b, s) && !Anni(n, a, b) && Heir(n, a, b, s) < |Born(n, a, b)|)
  }

  lemma SettledSurvivor(n: Net, a: AgentId, b: AgentId, p: PortRef)
    requires Sound(n) && Pair(n, a, b) && Clean(n, a, b) && n.IsPort(p) && Survives(n, a, b, p.id)
    ensures Settled(n, a, b, End(n, a, b, n.Target(p)))
  {
    if Anni(n, a, b) {
      ThroughAnni(n, a, b, p);
    } else {
      var s := n.Target(p);
      if s.AgentPort? {
        assert n.IsPort(s) && n.Target(s) == p;
        if Aux(n, a, b, s) { HeirOfSource(n, a, b, s); }
      }
    }
  }

  lemma SettledSource(n: Net, a: AgentId, b: AgentId, k: nat)
    requires Sound(n) && Pair(n, a, b) && Clean(n, a, b) && k < |Born(n, a, b)|
    ensures n.IsPort(Source(n, a, b, k)) && Settled(n, a, b, End(n, a, b, n.Target(Source(n, a, b, k))))
  {
    SourceOutside(n, a, b, k);
    assert !Anni(n, a, b);
    TargetLive(n, Source(n, a, b, k));
  }

  lemma PlaceImage(T: Steps, s: PortRef)
    requires Taken(T) && Pair(T.n, T.a, T.b) && Settled(T.n, T.a, T.b, s)
    ensures T.a in T.f && T.b in T.f && Pair(T.m, T.f[T.a], T.f[T.b])
    ensures Place(T.m, T.f[T.a], T.f[T.b], T.G, MapPort(T.f, s)) == MapPort(Carry(T), Place(T.n, T.a, T.b, T.F, s))
  {
    hide Reduced, Isomorphism, Sound, Clean, Facing, Taken, Carry, Heir, Pair, Born;
    TakenParts(T);
    FacingParts(T.n, T.m, T.f, T.a, T.b);
    AuxImage(T.n, T.m, T.f, T.a, T.b, s);
    if s.AgentPort? && Survives(T.n, T.a, T.b, s.id) {
      CarryOld(T, s.id);
    } else if s.AgentPort? {
      HeirImage(T.n, T.m, T.f, T.a, T.b, s);
      BornCount(T);
      CarryNew(T, Heir(T.n, T.a, T.b, s));
    }
  }

  lemma BornCount(T: Steps)
    requires Taken(T)
    ensures Pair(T.n, T.a, T.b) && |T.F| == |Born(T.n, T.a, T.b)| && |T.G| == |T.F|
  {
    SameCount(T);
    hide Born;
  }

  lemma FollowImage(T: Steps, r: PortRef)
    requires Taken(T) && Endpoint(T.n, r) && Pair(T.n, T.a, T.b) && Settled(T.n, T.a, T.b, End(T.n, T.a, T.b, r))
    ensures T.a in T.f && T.b in T.f && Pair(T.m, T.f[T.a], T.f[T.b])
    ensures Follow(T.m, T.f[T.a], T.f[T.b], T.G, MapPort(T.f, r)) == MapPort(Carry(T), Follow(T.n, T.a, T.b, T.F, r))
  {
    hide Reduced, Isomorphism, Sound, Clean, Facing, Taken, Carry, Heir, Pair, Born, Place, Settled, Endpoint, MapPort, End;
    TakenParts(T);
    EndImage(T.n, T.m, T.f, T.a, T.b, r);
    PlaceImage(T, End(T.n, T.a, T.b, r));
  }

  lemma SurvivorTarget(n: Net, a: AgentId, b: AgentId, F: seq<AgentId>, m: Net, p: PortRef)
    requires Pair(n, a, b) && Reduced(n, a, b, F, m) && n.IsPort(p) && Survives(n, a, b, p.id)
    ensures m.Target(p) == Follow(n, a, b, F, n.Target(p))
  {}

  lemma NewTarget(n: Net, a: AgentId, b: AgentId, F: seq<AgentId>, m: Net, k: nat)
    requires Pair(n, a, b) && Reduced(n, a, b, F, m) && k < |F|
    ensures |F| == |Born(n, a, b)| && m.Target(AgentPort(F[k], 0)) == Follow(n, a, b, F, n.Target(Source(n, a, b, k)))
  {}

  lemma InnerTarget(n: Net, a: AgentId, b: AgentId, F: seq<AgentId>, m: Net, k: nat, j: nat)
    requires Pair(n, a, b) && Reduced(n, a, b, F, m) && k < |F| && k < |Born(n, a, b)| && 1 <= j < TotalPorts(Born(n, a, b)[k])
    ensures var i := Inner(n, a, b, k, j); i.0 < |F| && m.Target(AgentPort(F[k], j)) == AgentPort(F[i.0], i.1)
  {}

  lemma CarryPort(T: Steps, x: AgentId, j: nat)
    requires x in Carry(T)
    ensures MapPort(Carry(T), AgentPort(x, j)) == AgentPort(Carry(T)[x], j)
  {}

  /** The wire of `p` is carried over. */
  ghost predicate CarriedAt(T: Steps, p: PortRef) {
    T.m'.Target(MapPort(Carry(T), p)) == MapPort(Carry(T), T.n'.Target(p))
  }

  lemma WireOfSurvivor(T: Steps, p: PortRef)
    requires Taken(T) && T.n.IsPort(p) && Survives(T.n, T.a, T.b, p.id)
    ensures CarriedAt(T, p)
  {
    hide Reduced, Isomorphism, Sound, Clean, Facing, Taken, Carry, Pair, Born, Settled, Endpoint, MapPort, End, Follow;
    TakenParts(T);
    FacingParts(T.n, T.m, T.f, T.a, T.b);
    CarryOld(T, p.id);
    CarryPort(T, p.id, p.port);
    PortImage(T.n, T.m, T.f, p);
    TargetLive(T.n, p);
    SettledSurvivor(T.n, T.a, T.b, p);
    FollowImage(T, T.n.Target(p));
    SurvivorTarget(T.n, T.a, T.b, T.F, T.n', p);
    SurvivorTarget(T.m, T.f[T.a], T.f[T.b], T.G, T.m', MapPort(T.f, p));
  }

  lemma WireOfHeir(T: Steps, k: nat)
    requires Taken(T) && k < |T.F|
    ensures CarriedAt(T, AgentPort(T.F[k], 0))
  {
    hide Reduced, Isomorphism, Sound, Clean, Facing, Taken, Carry, Pair, Born, Settled, Endpoint, MapPort, End, Follow, Source;
    TakenParts(T);
    FacingParts(T.n, T.m, T.f, T.a, T.b);
    BornCount(T);
    CarryNew(T, k);
    CarryPort(T, T.F[k], 0);
    ShapeImage(T.n, T.m, T.f, T.a, T.b);
    var u := Source(T.n, T.a, T.b, k);
    SettledSource(T.n, T.a, T.b, k);
    PortImage(T.n, T.m, T.f, u);
    TargetLive(T.n, u);
    FollowImage(T, T.n.Target(u));
    NewTarget(T.n, T.a, T.b, T.F, T.n', k);
    NewTarget(T.m, T.f[T.a], T.f[T.b], T.G, T.m', k);
  }

  lemma WireOfInner(T: Steps, k: nat, j: nat)
    requires Taken(T) && k < |T.F| && T.n'.IsPort(AgentPort(T.F[k], j)) && j >= 1
    ensures CarriedAt(T, AgentPort(T.F[k], j))
  {
    hide Reduced, Isomorphism, Sound, Clean, Facing, Taken, Carry, Pair, Born, MapPort, Inner;
    TakenParts(T);
    FacingParts(T.n, T.m, T.f, T.a, T.b);
    BornCount(T);
    CarryNew(T, k);
    CarryPort(T, T.F[k], j);
    ShapeImage(T.n, T.m, T.f, T.a, T.b);
    NewLive(T.n, T.a, T.b, T.F, T.n', k);
    InnerTarget(T.n, T.a, T.b, T.F, T.n', k, j);
    InnerTarget(T.m, T.f[T.a], T.f[T.b], T.G, T.m', k, j);
    var i := Inner(T.n, T.a, T.b, k, j);
    CarryNew(T, i.0);
    CarryPort(T, T.F[i.0], i.1);
  }

  /** Isomorphic nets stay isomorphic when a pair of the one and its image in the other
      are reduced, whatever ids the new agents get. */
  lemma StepTransported(T: Steps)
    requires Taken(T)
    ensures Isomorphic(T.n', T.m')
  {
    CarryBijection(T);
    hide Reduced, Isomorphic, Sound, Clean, Facing, Taken, Carry, Pair, MapPort, AgentBijection;
    TakenParts(T);
    forall p | T.n'.IsPort(p) ensures CarriedAt(T, p) {
      LiveCases(T.n, T.a, T.b, T.F, T.n', p.id);
      if Survives(T.n, T.a, T.b, p.id) {
        OldLive(T.n, T.a, T.b, T.F, T.n', p.id);
        WireOfSurvivor(T, p);
      } else {
        var k: nat :| k < |T.F| && T.F[k] == p.id;
        assert p == AgentPort(T.F[k], p.port);
        if p.port == 0 { WireOfHeir(T, k); } else { WireOfInner(T, k, p.port); }
      }
    }
    MakeIsomorphic(T.n', T.m', Carry(T));
  }

  lemma MakeIsomorphic(n: Net, m: Net, f: Mapping)
    requires AgentBijection(n, m, f)
    requires forall p :: n.IsPort(p) ==> m.Target(MapPort(f, p)) == MapPort(f, n.Target(p))
    ensures Isomorphic(n, m)
  {
    hide AgentBijection, MapPort;
    assert Isomorphism(n, m, f);
  }

  lemma IdentityIsomorphism(n: Net) returns (f: Mapping)
    ensures Isomorphism(n, n, f) && forall x :: x in n.agents ==> x in f && f[x] == x
  {
    f := Identity(n);
    IdentityBijection(n);
    assert forall p :: MapPort(f, p) == p;
    hide AgentBijection;
  }

  /** A step is determined up to the ids of the new agents. */
  lemma SameStep(n: Net, a: AgentId, b: AgentId, F: seq<AgentId>, m: Net, G: seq<AgentId>, m': Net)
    requires Sound(n) && Pair(n, a, b) && Clean(n, a, b) && Reduced(n, a, b, F, m) && Reduced(n, a, b, G, m')
    ensures Isomorphic(m, m')
  {
    hide Isomorphism, Isomorphic, Sound, Clean, Reduced;
    var f := IdentityIsomorphism(n);
    PairImage(n, n, f, a, b);
    StepTransported(Steps(n, n, f, a, b, F, m, G, m'));
  }
}
