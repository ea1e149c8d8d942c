/** Nets whose duplicators meet only erasers: they may close loops, and have one normal form. */
module EraserNets {
  import opened Nets
  import opened NetOps
  import opened NetIsomorphism
  import opened Interaction
  import opened Confluence
  import opened Runs
  import opened NormalForms
  import R = Reducer

  /** Duplicators face erasers or labels, and no wire joins two auxiliary ports of constructors. */
  ghost predicate Erasing(n: Net) {
    && (forall x :: x in n.agents && n.agents[x].Dup? ==> Outlet(n, n.Target(AgentPort(x, 0))))
    && (forall x, j :: x in n.agents && n.agents[x].Con? && 1 <= j <= 2 ==> !ConAux(n, n.Target(AgentPort(x, j))))
  }

  predicate Outlet(n: Net, t: PortRef) {
    t.AgentPort? ==> t.port == 0 && t.id in n.agents && n.agents[t.id].Era?
  }

  predicate ConAux(n: Net, t: PortRef) {
    t.AgentPort? && t.port != 0 && t.id in n.agents && n.agents[t.id].Con?
  }

  lemma DupAt(n: Net, x: AgentId)
    requires Erasing(n) && x in n.agents && n.agents[x].Dup?
    ensures Outlet(n, n.Target(AgentPort(x, 0)))
  {}

  lemma ConAt(n: Net, x: AgentId, j: nat)
    requires Erasing(n) && x in n.agents && n.agents[x].Con? && 1 <= j <= 2
    ensures !ConAux(n, n.Target(AgentPort(x, j)))
  {}

  /** An active pair is two constructors, or has an eraser; it is clean. */
  lemma ErasingPairs(n: Net, a: AgentId, b: AgentId)
    requires Erasing(n) && Pair(n, a, b)
    ensures (n.agents[a].Con? && n.agents[b].Con?) || n.agents[b].Era?
    ensures Clean(n, a, b)
    ensures Born(n, a, b) == [] || Born(n, a, b) == [Era, Era]
  {
    if n.agents[a].Dup? { DupAt(n, a); }
    if n.agents[b].Dup? { DupAt(n, b); }
    if n.agents[a].Con? && n.agents[b].Con? {
      ConAt(n, a, 1);
      ConAt(n, a, 2);
    }
    hide Erasing;
  }

  lemma ErasingForgives(n: Net)
    requires Erasing(n)
    ensures AllClean(n) && Forgiving(n)
  {
    hide Erasing, Clean;
    forall a, b | Pair(n, a, b) ensures Clean(n, a, b) { ErasingPairs(n, a, b); }
    forall a, b, c, d | TwoPairs(n, a, b, c, d) ensures !Diverging(n, a, b, c, d) { ErasingPairs(n, c, d); }
  }

  // ------------------------------------------------------------------------- one step

  lemma StepAgents(n: Net, a: AgentId, b: AgentId, F: seq<AgentId>, m: Net)
    requires Erasing(n) && Pair(n, a, b) && Reduced(n, a, b, F, m)
    ensures F == [] || |F| == 2
    ensures forall x :: x in m.agents && !Survives(n, a, b, x) ==> m.agents[x].Era?
    ensures forall x :: x in m.agents && Survives(n, a, b, x) ==> m.agents[x] == n.agents[x]
    ensures forall x :: Survives(n, a, b, x) ==> x in m.agents
    ensures forall k :: 0 <= k < |F| ==> F[k] in m.agents && m.agents[F[k]].Era? && !Survives(n, a, b, F[k])
  {
    ErasingPairs(n, a, b);
    hide Erasing, Born, Clean;
  }

  lemma WireAfter(n: Net, a: AgentId, b: AgentId, F: seq<AgentId>, m: Net, p: PortRef)
    requires Pair(n, a, b) && Reduced(n, a, b, F, m) && n.IsPort(p) && Survives(n, a, b, p.id)
    ensures m.Target(p) == Follow(n, a, b, F, n.Target(p))
  {}

  lemma FollowPlain(n: Net, a: AgentId, b: AgentId, F: seq<AgentId>, t: PortRef)
    requires Pair(n, a, b) && !Aux(n, a, b, t)
    ensures Follow(n, a, b, F, t) == t
  {}

  lemma DupStays(n: Net, a: AgentId, b: AgentId, F: seq<AgentId>, m: Net, x: AgentId)
    requires Sound(n) && Erasing(n) && Pair(n, a, b) && Reduced(n, a, b, F, m) && Survives(n, a, b, x) && n.agents[x].Dup?
    ensures Outlet(m, m.Target(AgentPort(x, 0)))
  {
    DupAt(n, x);
    var t := n.Target(AgentPort(x, 0));
    assert n.IsPort(AgentPort(x, 0));
    assert t.AgentPort? ==> n.Target(t) == AgentPort(x, 0);
    WireAfter(n, a, b, F, m, AgentPort(x, 0));
    FollowPlain(n, a, b, F, t);
    StepAgents(n, a, b, F, m);
    hide Erasing, Reduced, Follow, Sound;
  }

  /** A wire that met a duplicator now meets an eraser. */
  lemma FollowErased(n: Net, a: AgentId, b: AgentId, F: seq<AgentId>, t: PortRef)
    requires Pair(n, a, b) && Aux(n, a, b, t) && n.agents[b].Era? && |F| == |Born(n, a, b)|
    ensures Follow(n, a, b, F, t) == t || (exists k :: 0 <= k < |F| && Follow(n, a, b, F, t) == AgentPort(F[k], 0))
  {}

  lemma ConStays(n: Net, a: AgentId, b: AgentId, F: seq<AgentId>, m: Net, x: AgentId, j: nat)
    requires Sound(n) && Erasing(n) && Pair(n, a, b) && Reduced(n, a, b, F, m) && Survives(n, a, b, x) && n.agents[x].Con?
    requires 1 <= j <= 2
    ensures !ConAux(m, m.Target(AgentPort(x, j)))
  {
    var p := AgentPort(x, j);
    var t := n.Target(p);
    ConAt(n, x, j);
    WireAfter(n, a, b, F, m, p);
    ErasingPairs(n, a, b);
    StepAgents(n, a, b, F, m);
    assert |F| == |Born(n, a, b)|;
    hide Erasing, Reduced, Follow, Clean, Born;
    if Aux(n, a, b, t) {
      FollowErased(n, a, b, F, t);
    } else {
      FollowPlain(n, a, b, F, t);
    }
  }

  lemma StepErasing(n: Net, a: AgentId, b: AgentId, F: seq<AgentId>, m: Net)
    requires Sound(n) && Erasing(n) && Pair(n, a, b) && Reduced(n, a, b, F, m)
    ensures Erasing(m)
  {
    hide Sound, Erasing, Pair, Reduced, Outlet, ConAux;
    StepAgents(n, a, b, F, m);
    forall x | x in m.agents && m.agents[x].Dup? ensures Outlet(m, m.Target(AgentPort(x, 0))) {
      DupStays(n, a, b, F, m, x);
    }
    forall x, j | x in m.agents && m.agents[x].Con? && 1 <= j <= 2 ensures !ConAux(m, m.Target(AgentPort(x, j))) {
      ConStays(n, a, b, F, m, x, j);
    }
    MakeErasing(m);
  }

  lemma MakeErasing(n: Net)
    requires forall x :: x in n.agents && n.agents[x].Dup? ==> Outlet(n, n.Target(AgentPort(x, 0)))
    requires forall x, j :: x in n.agents && n.agents[x].Con? && 1 <= j <= 2 ==> !ConAux(n, n.Target(AgentPort(x, j)))
    ensures Erasing(n)
  {}

  // ----------------------------------------------------------------------- termination

  ghost function Solid(n: Net): set<AgentId> {
    set x | x in n.agents && !n.agents[x].Era?
  }

  /** A constructor or duplicator weighs as much as three erasers. */
  ghost function Weight(n: Net): nat {
    2 * |Solid(n)| + |n.agents.Keys|
  }

  lemma ReducedKeys(n: Net, a: AgentId, b: AgentId, F: seq<AgentId>, m: Net)
    requires Pair(n, a, b) && Reduced(n, a, b, F, m)
    ensures a in n.agents && b in n.agents && a != b
    ensures forall x :: x in m.agents <==> Survives(n, a, b, x) || x in F
    ensures forall x :: x in F ==> !Survives(n, a, b, x)
    ensures forall i, j :: 0 <= i < j < |F| ==> F[i] != F[j]
  {}

  lemma StepSize(n: Net, a: AgentId, b: AgentId, F: seq<AgentId>, m: Net)
    requires Pair(n, a, b) && Reduced(n, a, b, F, m)
    ensures |m.agents.Keys| == |n.agents.Keys| - 2 + |F|
  {
    hide Pair, Reduced;
    ReducedKeys(n, a, b, F, m);
    ElementsSize(F);
    var rest := n.agents.Keys - {a, b};
    assert m.agents.Keys == rest + Elements(F);
    assert rest !! Elements(F);
    assert |rest| == |n.agents.Keys| - 2;
  }

  lemma StepKeys(n: Net, a: AgentId, b: AgentId, F: seq<AgentId>, m: Net)
    requires Erasing(n) && Pair(n, a, b) && Reduced(n, a, b, F, m)
    ensures |m.agents.Keys| == |n.agents.Keys| - 2 + |F| && Solid(m) == Solid(n) - {a, b}
  {
    hide Erasing, Pair, Reduced;
    StepAgents(n, a, b, F, m);
    StepSize(n, a, b, F, m);
  }

  lemma StepLighter(n: Net, a: AgentId, b: AgentId, F: seq<AgentId>, m: Net)
    requires Erasing(n) && Pair(n, a, b) && Reduced(n, a, b, F, m)
    ensures Weight(m) < Weight(n)
  {
    StepKeys(n, a, b, F, m);
    ErasingPairs(n, a, b);
    assert |F| == |Born(n, a, b)|;
    var s := Solid(n);
    assert a in n.agents && b in n.agents && a != b;
    assert n.agents[a].Era? ==> |F| == 0;
    hide Erasing, Pair, Reduced, Clean, Born;
    if a in s { assert |s - {a, b}| < |s| by { assert s - {a, b} < s; ProperSmaller(s - {a, b}, s); } }
    else { assert |s - {a, b}| <= |s| by { assert s - {a, b} <= s; if s - {a, b} != s { ProperSmaller(s - {a, b}, s); } } }
  }

  lemma ProperSmaller(s: set<AgentId>, t: set<AgentId>)
    requires s < t
    ensures |s| < |t|
  {
    assert |t| == |s| + |t - s|;
    var x :| x in t - s;
  }

  lemma TakeErasing(n: Net, s: Move)
    requires Sound(n) && AllocOk(n) && Erasing(n) && Enabled(n, s)
    ensures var m := Take(n, s); Sound(m) && AllocOk(m) && Erasing(m) && Weight(m) < Weight(n)
  {
    hide Sound, AllocOk, Erasing, Take, Reduced, Weight, Clean;
    ErasingPairs(n, s.a, s.b);
    var F := TakeIsStep(n, s);
    StepErasing(n, s.a, s.b, F, Take(n, s));
    StepLighter(n, s.a, s.b, F, Take(n, s));
  }

  lemma {:induction false} RunErasing(n: Net, run: seq<Move>)
    requires Sound(n) && AllocOk(n) && Erasing(n) && Legal(n, run)
    ensures Erasing(After(n, run)) && |run| <= Weight(n)
    decreases |run|
  {
    hide Sound, AllocOk, Erasing, Take, Weight, Enabled;
    if run != [] {
      TakeErasing(n, run[0]);
      RunErasing(Take(n, run[0]), run[1..]);
    }
  }

  /** Such a net always terminates, and whatever loops are closed rejoins. */
  lemma ErasingOrderly(n: Net)
    requires Sound(n) && AllocOk(n) && Erasing(n)
    ensures Orderly(n) && Bounded(n, Weight(n))
  {
    hide Sound, AllocOk, Erasing, Weight, Legal, After, AllClean, Forgiving;
    forall run | Legal(n, run) ensures AllClean(After(n, run)) && Forgiving(After(n, run)) && |run| <= Weight(n) {
      RunErasing(n, run);
      ErasingForgives(After(n, run));
    }
  }

  /** So it has one normal form. */
  lemma ErasingUnique(n: Net, run: seq<Move>, other: seq<Move>)
    requires Sound(n) && AllocOk(n) && Erasing(n) && Legal(n, run) && Legal(n, other)
    requires R.IsNormalForm(After(n, run)) && R.IsNormalForm(After(n, other))
    ensures Isomorphic(After(n, run), After(n, other))
  {
    hide Sound, AllocOk, Erasing, Weight, Legal, After, Isomorphic, R.IsNormalForm, Orderly, Bounded;
    ErasingOrderly(n);
    OneNormalForm(n, run, other, Weight(n));
  }
}
