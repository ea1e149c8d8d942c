/** Nets on which the order of two steps matters, because an annihilation closes a loop. */
module LoopExamples {
  import opened Nets
  import opened NetOps
  import opened NetIsomorphism
  import opened Interaction
  import opened Confluence
  import opened Engine
  import opened Reducer
  import opened Rules
  import opened Rejoining
  import Transport
  import opened RulesConfluence

  /** Two constructors face each other, and through them the two auxiliary ports of a third
      one, which faces an eraser. */
  const ERASED_LOOP: Net :=
    Net(map[0 := Con, 1 := Con, 2 := Con, 3 := Era],
        map[AgentPort(0, 0) := AgentPort(1, 0), AgentPort(1, 0) := AgentPort(0, 0),
            AgentPort(2, 0) := AgentPort(3, 0), AgentPort(3, 0) := AgentPort(2, 0),
            AgentPort(2, 1) := AgentPort(0, 1), AgentPort(0, 1) := AgentPort(2, 1),
            AgentPort(2, 2) := AgentPort(1, 2), AgentPort(1, 2) := AgentPort(2, 2),
            AgentPort(0, 2) := FreePort(1), AgentPort(1, 1) := FreePort(2)],
        4, 4, [(0, 1), (2, 3)], None, [], true)

  /** The same, with the two auxiliary ports of a duplicator that faces a constructor. */
  const COPIED_LOOP: Net :=
    Net(map[0 := Con, 1 := Con, 2 := Con, 3 := Dup],
        map[AgentPort(0, 0) := AgentPort(1, 0), AgentPort(1, 0) := AgentPort(0, 0),
            AgentPort(2, 0) := AgentPort(3, 0), AgentPort(3, 0) := AgentPort(2, 0),
            AgentPort(3, 1) := AgentPort(0, 1), AgentPort(0, 1) := AgentPort(3, 1),
            AgentPort(3, 2) := AgentPort(1, 2), AgentPort(1, 2) := AgentPort(3, 2),
            AgentPort(0, 2) := FreePort(1), AgentPort(1, 1) := FreePort(2),
            AgentPort(2, 1) := FreePort(3), AgentPort(2, 2) := FreePort(4)],
        4, 4, [(0, 1), (2, 3)], None, [], true)

  ghost predicate Erased(n: Net) {
    && n.agents == map[0 := Con, 1 := Con, 2 := Con, 3 := Era]
    && n.Target(AgentPort(0, 0)) == AgentPort(1, 0) && n.Target(AgentPort(1, 0)) == AgentPort(0, 0)
    && n.Target(AgentPort(2, 0)) == AgentPort(3, 0) && n.Target(AgentPort(3, 0)) == AgentPort(2, 0)
    && n.Target(AgentPort(2, 1)) == AgentPort(0, 1) && n.Target(AgentPort(0, 1)) == AgentPort(2, 1)
    && n.Target(AgentPort(2, 2)) == AgentPort(1, 2) && n.Target(AgentPort(1, 2)) == AgentPort(2, 2)
    && n.Target(AgentPort(0, 2)) == FreePort(1) && n.Target(AgentPort(1, 1)) == FreePort(2)
  }

  lemma ErasedWires()
    ensures Erased(ERASED_LOOP)
  {}

  lemma ErasedAlloc()
    ensures AllocOk(ERASED_LOOP) && ERASED_LOOP.arena == 4
  {}

  lemma ErasedSound(n: Net)
    requires Erased(n) && n.arena == 4
    ensures Sound(n)
  {
    forall p | n.IsPort(p)
      ensures n.Target(p) != p && (n.Target(p).AgentPort? ==> n.IsPort(n.Target(p)) && n.Target(n.Target(p)) == p)
    {
      assert p == AgentPort(p.id, p.port);
    }
  }

  lemma ErasedPairs(n: Net)
    requires Erased(n)
    ensures TwoPairs(n, 0, 1, 2, 3) && Anni(n, 0, 1) && !Anni(n, 2, 3) && Closes(n, 0, 1, 2) && !Closes(n, 0, 1, 3)
    ensures Clean(n, 0, 1) && Clean(n, 2, 3) && CleanThrough(n, 0, 1, 2, 3) && CleanThrough(n, 2, 3, 0, 1)
  {}

  lemma OnlyFour(n: Net, x: AgentId)
    requires Erased(n) || Copied(n)
    ensures !SurvivesBoth(n, 0, 1, 2, 3, x)
  {}

  /** What the wires of `COPIED_LOOP` are. */
  ghost predicate Copied(n: Net) {
    && n.agents == map[0 := Con, 1 := Con, 2 := Con, 3 := Dup]
    && n.Target(AgentPort(0, 0)) == AgentPort(1, 0) && n.Target(AgentPort(1, 0)) == AgentPort(0, 0)
    && n.Target(AgentPort(2, 0)) == AgentPort(3, 0) && n.Target(AgentPort(3, 0)) == AgentPort(2, 0)
    && n.Target(AgentPort(3, 1)) == AgentPort(0, 1) && n.Target(AgentPort(0, 1)) == AgentPort(3, 1)
    && n.Target(AgentPort(3, 2)) == AgentPort(1, 2) && n.Target(AgentPort(1, 2)) == AgentPort(3, 2)
    && n.Target(AgentPort(0, 2)) == FreePort(1) && n.Target(AgentPort(1, 1)) == FreePort(2)
    && n.Target(AgentPort(2, 1)) == FreePort(3) && n.Target(AgentPort(2, 2)) == FreePort(4)
  }

  lemma CopiedWires()
    ensures Copied(COPIED_LOOP)
  {}

  lemma CopiedAlloc()
    ensures AllocOk(COPIED_LOOP) && COPIED_LOOP.arena == 4
  {}

  lemma CopiedSound(n: Net)
    requires Copied(n) && n.arena == 4
    ensures Sound(n)
  {
    forall p | n.IsPort(p)
      ensures n.Target(p) != p && (n.Target(p).AgentPort? ==> n.IsPort(n.Target(p)) && n.Target(n.Target(p)) == p)
    {
      assert p == AgentPort(p.id, p.port);
    }
  }

  lemma CopiedPairs(n: Net)
    requires Copied(n)
    ensures TwoPairs(n, 0, 1, 2, 3) && Anni(n, 0, 1) && !Anni(n, 2, 3) && !Closes(n, 0, 1, 2) && Closes(n, 0, 1, 3)
    ensures Clean(n, 0, 1) && Clean(n, 2, 3) && CleanThrough(n, 0, 1, 2, 3) && CleanThrough(n, 2, 3, 0, 1) && !Loop(n, 2)
  {}

  // ------------------------------------------------------------------ the eraser's net

  lemma FastEmpty(R: Run, S: Run)
    requires Race(R, S) && Erased(R.n) && R.a == 0 && R.b == 1 && R.c == 2 && R.d == 3 && Shut(R, S, 2)
    ensures forall x :: x !in R.m.agents
  {
    hide Race, Erased, Shut, Loop;
    FastAgents(R, S);
    FastMidFacts(R, S);
    ShutLoops(R, S, 2);
    assert R.n.agents[3].Era? by { ErasedSymbol(R.n); }
    forall x ensures !SurvivesBoth(R.n, R.a, R.b, R.c, R.d, x) { OnlyFour(R.n, x); }
  }

  lemma ErasedSymbol(n: Net)
    requires Erased(n)
    ensures 3 in n.agents && n.agents[3].Era?
  {}

  lemma NothingLeft(n: Net, m: Net)
    requires Isomorphic(n, m) && forall x :: x !in n.agents
    ensures forall x :: x !in m.agents
  {
    var f :| Isomorphism(n, m, f);
    hide Isomorphic, Isomorphism;
    forall x ensures x !in m.agents {
      if x in m.agents { var y := Transport.ImageOnto(n, m, f, x); }
    }
  }

  /** A loop closed on a constructor that faces an eraser: the two orders differ after two
      steps and both end in the empty net, after two steps and after three. */
  lemma ErasedRejoins() returns (e: AgentId, f: AgentId)
    ensures CleanEitherWay(ERASED_LOOP, 0, 1, 2, 3) && LoopClosed(ERASED_LOOP, 0, 1, 2, 3)
    ensures Pair(Apply(ERASED_LOOP, 0, 1), 2, 3) && Pair(Apply(ERASED_LOOP, 2, 3), 0, 1)
    ensures Vanishes(Apply(Apply(ERASED_LOOP, 0, 1), 2, 3), Apply(Apply(ERASED_LOOP, 2, 3), 0, 1), e, f)
  {
    var n := ERASED_LOOP;
    ErasedWires();
    ErasedAlloc();
    ErasedSound(n);
    ErasedPairs(n);
    hide Apply, Erased, Closes, Clean, CleanThrough, Sound, AllocOk, Loop, Race, RejoinsBy, Isomorphic, Pair;
    e, f := LoopRejoins(n, 0, 1, 2, 3);
    EitherOrder(n, 0, 1, 2, 3);
    var R, S := RaceOf(n, 0, 1, 2, 3);
    FastEmpty(R, S);
    IsVanished(R.m, S.m, e, f);
  }

  /** `fast` is empty, `slow` is not, but is once the pair (e, f) is reduced. */
  ghost predicate Vanishes(fast: Net, slow: Net, e: AgentId, f: AgentId) {
    && fast.agents == map[] && CleanPair(slow, e, f) && Apply(slow, e, f).agents == map[]
  }

  lemma IsVanished(fast: Net, slow: Net, e: AgentId, f: AgentId)
    requires RejoinsBy(fast, slow, e, f) && forall x :: x !in fast.agents
    ensures Vanishes(fast, slow, e, f)
  {
    hide Apply, Isomorphic, Clean;
    NothingLeft(fast, Apply(slow, e, f));
  }

  // -------------------------------------------------------------- the duplicator's net

  /** Principal ports all lead to labels, so no two agents face each other. */
  lemma LabelledNormal(m: Net)
    requires forall x :: x in m.agents ==> m.Target(AgentPort(x, 0)).FreePort?
    ensures IsNormalForm(m)
  {}

  ghost predicate CopiedRace(R: Run, S: Run) {
    Race(R, S) && Copied(R.n) && R.a == 0 && R.b == 1 && R.c == 2 && R.d == 3
  }

  lemma CopiedLabels(R: Run, S: Run, j: nat)
    requires CopiedRace(R, S) && 1 <= j <= 2
    ensures R.mid.Target(AgentPort(2, j)).FreePort?
  {
    hide Race;
    assert j == 1 || j == 2;
    FastMid(R, S, AgentPort(2, j));
  }

  lemma CopiedShut(R: Run, S: Run)
    requires CopiedRace(R, S)
    ensures Race(R, S) && Shut(R, S, 3) && !Shut(R, S, 2) && |S.F| == 4
    ensures forall x :: !SurvivesBoth(R.n, R.a, R.b, R.c, R.d, x)
  {
    hide Race, Copied;
    CopiedPairs(R.n);
    SlowCount(R, S, 3);
    forall x ensures !SurvivesBoth(R.n, R.a, R.b, R.c, R.d, x) { OnlyFour(R.n, x); }
  }

  lemma FastNormal(R: Run, S: Run)
    requires CopiedRace(R, S)
    ensures IsNormalForm(R.m)
  {
    hide CopiedRace, Race, Shut, IsNormalForm, Loop, Born, Source, Interaction.Reduced;
    CopiedShut(R, S);
    CopiedIds(R, S);
    FastAgents(R, S);
    FastMidFacts(R, S);
    FullBefore(R, S);
    LoopedHalf(R.mid, R.c, R.d);
    forall x | x in R.m.agents ensures R.m.Target(AgentPort(x, 0)).FreePort? {
      var k: nat :| k < |R.G| && R.G[k] == x;
      HeirWire(R.mid, R.c, R.d, R.G, R.m, k);
      CopiedLabels(R, S, k + 1);
    }
    LabelledNormal(R.m);
  }

  lemma CopiedIds(R: Run, S: Run)
    requires CopiedRace(R, S)
    ensures R.a == 0 && R.b == 1 && R.c == 2 && R.d == 3
  {}

  lemma SlowNormal(R: Run, S: Run, w: Net)
    requires CopiedRace(R, S) && Third(R, S, 3, w)
    ensures IsNormalForm(w)
  {
    hide CopiedRace, Race, Shut, IsNormalForm, Loop, Born, Source, Interaction.Reduced, Third, Twin, Later;
    CopiedShut(R, S);
    CopiedIds(R, S);
    ThirdAgents(R, S, 3, w);
    FullBefore(R, S);
    BornFull(R.n, R.c, R.d);
    TwinOfD(R, S);
    forall x | x in w.agents ensures w.Target(AgentPort(x, 0)).FreePort? {
      var k: nat :| k < |S.F| && S.F[k] == x;
      assert k == 0 || k == 1;
      ThirdPrincipal(R, S, 3, w, k, AgentPort(2, k + 1));
      CopiedLabels(R, S, k + 1);
      LaterLabel(R, S, R.mid.Target(AgentPort(2, k + 1)));
    }
    LabelledNormal(w);
  }

  lemma LaterLabel(R: Run, S: Run, t: PortRef)
    requires Race(R, S) && t.FreePort?
    ensures Later(R, S, t) == t
  {
    hide Race;
  }

  /** Two normal forms that are not the same net, `fast` and `slow` with (e, f) reduced. */
  ghost predicate TwoEnds(fast: Net, slow: Net, e: AgentId, f: AgentId) {
    && IsNormalForm(fast) && CleanPair(slow, e, f) && IsNormalForm(Apply(slow, e, f))
    && !Isomorphic(fast, Apply(slow, e, f))
  }

  lemma CopiedEnds(R: Run, S: Run) returns (e: AgentId, f: AgentId)
    requires CopiedRace(R, S) && Sound(S.m) && AllocOk(S.m)
    ensures TwoEnds(R.m, S.m, e, f)
  {
    hide Apply, CopiedRace, Race, Shut, Loop, Sound, AllocOk, Clean, Isomorphic, IsNormalForm, Interaction.Reduced;
    CopiedShut(R, S);
    CopiedIds(R, S);
    TwinOfD(R, S);
    TwinsClean(R, S, 3);
    TwinsFace(R, S, 3);
    e, f := S.F[2], S.F[3];
    VanishOf(S.m, e, f);
    FastNormal(R, S);
    SlowNormal(R, S, Apply(S.m, e, f));
    NotRejoined(R, S, Apply(S.m, e, f));
  }

  /** A loop closed on a duplicator that faces a constructor: the two orders end in different
      normal forms. */
  lemma CopiedDiffers() returns (e: AgentId, f: AgentId)
    ensures CleanEitherWay(COPIED_LOOP, 0, 1, 2, 3) && LoopClosed(COPIED_LOOP, 0, 1, 2, 3)
    ensures Pair(Apply(COPIED_LOOP, 0, 1), 2, 3) && Pair(Apply(COPIED_LOOP, 2, 3), 0, 1)
    ensures TwoEnds(Apply(Apply(COPIED_LOOP, 0, 1), 2, 3), Apply(Apply(COPIED_LOOP, 2, 3), 0, 1), e, f)
  {
    var n := COPIED_LOOP;
    CopiedWires();
    CopiedAlloc();
    CopiedSound(n);
    CopiedPairs(n);
    hide Apply, Copied, Closes, Clean, CleanThrough, Sound, AllocOk, Loop, Race, TwoEnds, Pair;
    var R, S := RaceOf(n, 0, 1, 2, 3);
    e, f := CopiedEnds(R, S);
  }
}
