/** A net on which the order decides the normal form but not the number of interactions. */
module SplitLoop {
  import opened Nets
  import opened NetOps
  import opened NetIsomorphism
  import opened Interaction
  import opened Confluence
  import opened Engine
  import opened Runs
  import opened NormalForms
  import opened WireSteps
  import Rejoining
  import R = Reducer

  /** Two constructors face each other; through them run the two auxiliary wires of the
      duplicator 3, which faces the constructor 2, and one wire of 2, which leads to a
      duplicator with an eraser on each auxiliary port. */
  const SPLIT_LOOP: Net :=
    Net(map[0 := Con, 1 := Con, 2 := Con, 3 := Dup, 4 := Dup, 5 := Era, 6 := Era],
        map[AgentPort(0, 0) := AgentPort(1, 0), AgentPort(1, 0) := AgentPort(0, 0),
            AgentPort(2, 0) := AgentPort(3, 0), AgentPort(3, 0) := AgentPort(2, 0),
            AgentPort(3, 1) := AgentPort(0, 1), AgentPort(0, 1) := AgentPort(3, 1),
            AgentPort(3, 2) := AgentPort(1, 2), AgentPort(1, 2) := AgentPort(3, 2),
            AgentPort(2, 1) := AgentPort(0, 2), AgentPort(0, 2) := AgentPort(2, 1),
            AgentPort(4, 0) := AgentPort(1, 1), AgentPort(1, 1) := AgentPort(4, 0),
            AgentPort(2, 2) := FreePort(1),
            AgentPort(4, 1) := AgentPort(5, 0), AgentPort(5, 0) := AgentPort(4, 1),
            AgentPort(4, 2) := AgentPort(6, 0), AgentPort(6, 0) := AgentPort(4, 2)],
        7, 7, [(0, 1), (2, 3)], None, [], true)

  /** Its wires. */
  ghost predicate Start(n: Net) {
    && n.agents == map[0 := Con, 1 := Con, 2 := Con, 3 := Dup, 4 := Dup, 5 := Era, 6 := Era]
    && Joined(n, AgentPort(0, 0), AgentPort(1, 0)) && Joined(n, AgentPort(2, 0), AgentPort(3, 0))
    && Joined(n, AgentPort(3, 1), AgentPort(0, 1)) && Joined(n, AgentPort(3, 2), AgentPort(1, 2))
    && Joined(n, AgentPort(2, 1), AgentPort(0, 2)) && Joined(n, AgentPort(4, 0), AgentPort(1, 1))
    && OnLabel(n, AgentPort(2, 2), 1)
    && Joined(n, AgentPort(4, 1), AgentPort(5, 0)) && Joined(n, AgentPort(4, 2), AgentPort(6, 0))
  }

  lemma SplitPairs()
    ensures var n := SPLIT_LOOP; Joined(n, AgentPort(0, 0), AgentPort(1, 0)) && Joined(n, AgentPort(2, 0), AgentPort(3, 0))
  {}

  lemma SplitUpper()
    ensures var n := SPLIT_LOOP; Joined(n, AgentPort(3, 1), AgentPort(0, 1)) && Joined(n, AgentPort(3, 2), AgentPort(1, 2))
  {}

  lemma SplitLower()
    ensures var n := SPLIT_LOOP;
      && Joined(n, AgentPort(2, 1), AgentPort(0, 2)) && Joined(n, AgentPort(4, 0), AgentPort(1, 1))
      && Joined(n, AgentPort(4, 1), AgentPort(5, 0)) && Joined(n, AgentPort(4, 2), AgentPort(6, 0))
      && OnLabel(n, AgentPort(2, 2), 1)
  {}

  lemma SplitStarts()
    ensures Start(SPLIT_LOOP)
  {
    hide Joined, OnLabel;
    SplitPairs();
    SplitUpper();
    SplitLower();
  }

  lemma SplitAlloc()
    ensures AllocOk(SPLIT_LOOP) && SPLIT_LOOP.arena == 7
  {}

  lemma StartSound(n: Net)
    requires Start(n) && n.arena == 7
    ensures Sound(n)
  {
    forall p | n.IsPort(p)
      ensures n.Target(p) != p && (n.Target(p).AgentPort? ==> n.IsPort(n.Target(p)) && n.Target(n.Target(p)) == p)
    {
      assert p == AgentPort(p.id, p.port);
    }
  }

  /** The only pairs are (0, 1), in either order, and (2, 3); both are clean, and the first
      closes a loop on the duplicator of the second. */
  lemma StartPairs(n: Net)
    requires Start(n)
    ensures Pair(n, 0, 1) && Pair(n, 1, 0) && Pair(n, 2, 3) && TwoPairs(n, 0, 1, 2, 3) && Diverging(n, 0, 1, 2, 3)
    ensures Clean(n, 0, 1) && Clean(n, 1, 0) && Clean(n, 2, 3)
    ensures !Loop(n, 2) && !Loop(n, 3) && Anni(n, 0, 1)
  {}

  lemma StartOnly(n: Net, a: AgentId, b: AgentId)
    requires Start(n) && Pair(n, a, b)
    ensures (a == 0 && b == 1) || (a == 1 && b == 0) || (a == 2 && b == 3)
  {}

  // -------------------------------------------------------------- the annihilation first

  /** After the annihilation: the duplicator 3 has a loop. */
  ghost predicate Fast0(n: Net) {
    && n.agents == map[2 := Con, 3 := Dup, 4 := Dup, 5 := Era, 6 := Era]
    && Joined(n, AgentPort(2, 0), AgentPort(3, 0)) && Joined(n, AgentPort(3, 1), AgentPort(3, 2))
    && Joined(n, AgentPort(2, 1), AgentPort(4, 0)) && OnLabel(n, AgentPort(2, 2), 1)
    && Joined(n, AgentPort(4, 1), AgentPort(5, 0)) && Joined(n, AgentPort(4, 2), AgentPort(6, 0))
  }

  /** Two looped duplicators, one of them facing 4. */
  ghost predicate Fast1(n: Net, g: AgentId, h: AgentId) {
    && g != h && g !in {4, 5, 6} && h !in {4, 5, 6}
    && n.agents == map[g := Dup, h := Dup, 4 := Dup, 5 := Era, 6 := Era]
    && Joined(n, AgentPort(g, 0), AgentPort(4, 0)) && OnLabel(n, AgentPort(h, 0), 1)
    && Joined(n, AgentPort(g, 1), AgentPort(g, 2)) && Joined(n, AgentPort(h, 1), AgentPort(h, 2))
    && Joined(n, AgentPort(4, 1), AgentPort(5, 0)) && Joined(n, AgentPort(4, 2), AgentPort(6, 0))
  }

  ghost predicate Fast2(n: Net, h: AgentId) {
    && h !in {5, 6} && n.agents == map[h := Dup, 5 := Era, 6 := Era]
    && OnLabel(n, AgentPort(h, 0), 1) && Joined(n, AgentPort(h, 1), AgentPort(h, 2))
    && Joined(n, AgentPort(5, 0), AgentPort(6, 0))
  }

  /** One looped duplicator on a label. */
  ghost predicate Fast3(n: Net, h: AgentId) {
    n.agents == map[h := Dup] && OnLabel(n, AgentPort(h, 0), 1)
  }

  lemma ToFast0Agents(n: Net, F: seq<AgentId>, m: Net)
    requires Start(n) && Pair(n, 0, 1) && Reduced(n, 0, 1, F, m)
    ensures m.agents == map[2 := Con, 3 := Dup, 4 := Dup, 5 := Era, 6 := Era]
  {
    assert Born(n, 0, 1) == [];
    hide Reduced, Joined, OnLabel, Pair, Born;
    OnlyRemoved(n, 0, 1, F, m);
  }

  lemma ToFast0(n: Net, F: seq<AgentId>, m: Net)
    requires Start(n) && Pair(n, 0, 1) && Reduced(n, 0, 1, F, m)
    ensures Fast0(m)
  {
    hide Reduced;
    ToFast0Agents(n, F, m);
    Stays(n, 0, 1, F, m, AgentPort(2, 0), AgentPort(3, 0));
    Joins(n, 0, 1, F, m, AgentPort(3, 1), AgentPort(0, 1), AgentPort(1, 2), AgentPort(3, 2));
    Joins(n, 0, 1, F, m, AgentPort(2, 1), AgentPort(0, 2), AgentPort(1, 1), AgentPort(4, 0));
    StaysOnLabel(n, 0, 1, F, m, AgentPort(2, 2), 1);
    Stays(n, 0, 1, F, m, AgentPort(4, 1), AgentPort(5, 0));
    Stays(n, 0, 1, F, m, AgentPort(4, 2), AgentPort(6, 0));
  }

  lemma Fast0Shape(n: Net)
    requires Fast0(n)
    ensures Pair(n, 2, 3) && Born(n, 2, 3) == [Dup, Dup]
    ensures Source(n, 2, 3, 0) == AgentPort(2, 1) && Source(n, 2, 3, 1) == AgentPort(2, 2)
    ensures Inner(n, 2, 3, 0, 1) == (0, 2) && Inner(n, 2, 3, 1, 1) == (1, 2)
  {
    assert Loop(n, 3) && !Loop(n, 2);
  }

  lemma ToFast1Agents(n: Net, F: seq<AgentId>, m: Net)
    requires Fast0(n) && Pair(n, 2, 3) && Reduced(n, 2, 3, F, m)
    ensures |F| == 2 && F[0] != F[1] && F[0] !in {4, 5, 6} && F[1] !in {4, 5, 6}
    ensures m.agents == map[F[0] := Dup, F[1] := Dup, 4 := Dup, 5 := Era, 6 := Era]
  {
    hide Reduced, Born, Joined, OnLabel, Pair;
    Fast0Shape(n);
    AgentsAfter(n, 2, 3, F, m);
    assert F[0] in F && F[1] in F;
    assert forall x :: x in F ==> x == F[0] || x == F[1];
    assert forall x :: Survives(n, 2, 3, x) <==> x in {4, 5, 6};
  }

  lemma ToFast1(n: Net, F: seq<AgentId>, m: Net)
    requires Sound(n) && Fast0(n) && Pair(n, 2, 3) && Clean(n, 2, 3) && Reduced(n, 2, 3, F, m)
    ensures |F| == 2 && Fast1(m, F[0], F[1])
  {
    hide Reduced, Sound, Clean, Born, Source, Inner, Pair;
    Fast0Shape(n);
    ToFast1Agents(n, F, m);
    TakesOver(n, 2, 3, F, m, 0, AgentPort(4, 0));
    TakesOverLabel(n, 2, 3, F, m, 1, 1);
    NewWires(n, 2, 3, F, m, 0, 1);
    NewWires(n, 2, 3, F, m, 1, 1);
    Stays(n, 2, 3, F, m, AgentPort(4, 1), AgentPort(5, 0));
    Stays(n, 2, 3, F, m, AgentPort(4, 2), AgentPort(6, 0));
  }

  lemma ToFast2(n: Net, g: AgentId, h: AgentId, F: seq<AgentId>, m: Net)
    requires Fast1(n, g, h) && Pair(n, g, 4) && Reduced(n, g, 4, F, m)
    ensures Fast2(m, h)
  {
    AgentsAfter(n, g, 4, F, m);
    assert Loop(n, g) && Anni(n, g, 4);
    hide Reduced;
    StaysOnLabel(n, g, 4, F, m, AgentPort(h, 0), 1);
    Stays(n, g, 4, F, m, AgentPort(h, 1), AgentPort(h, 2));
    JoinsLoop(n, g, 4, F, m, g, 4, AgentPort(5, 0), AgentPort(6, 0));
  }

  lemma ToFast3(n: Net, h: AgentId, F: seq<AgentId>, m: Net)
    requires Fast2(n, h) && Pair(n, 5, 6) && Reduced(n, 5, 6, F, m)
    ensures Fast3(m, h)
  {
    AgentsAfter(n, 5, 6, F, m);
    hide Reduced;
    StaysOnLabel(n, 5, 6, F, m, AgentPort(h, 0), 1);
  }

  // -------------------------------------------------------------- the commutation first

  /** What the commutation leaves: the annihilation of (0, 1), then that of the two new
      constructors and that of the first new duplicator with 4, have been done or not. */
  ghost predicate Slow(n: Net, e: seq<AgentId>, p: bool, q: bool, r: bool) {
    && |e| == 4 && (forall i, j :: 0 <= i < j < 4 ==> e[i] != e[j])
    && (forall i :: 0 <= i < 4 ==> e[i] !in {0, 1, 4, 5, 6}) && (q ==> p) && (r ==> p)
    && SlowAgents(n, e, p, q, r) && SlowFirst(n, e, p) && SlowSecond(n, e, p, q, r) && SlowThird(n, e, p, q, r)
  }

  ghost predicate SlowAgents(n: Net, e: seq<AgentId>, p: bool, q: bool, r: bool)
    requires |e| == 4
  {
    && (forall x :: x in n.agents <==>
          (!p && (x == 0 || x == 1)) || (!q && (x == e[2] || x == e[3])) || (!r && (x == e[0] || x == 4)) || x == e[1] || x == 5 || x == 6)
    && (!p ==> n.agents[0].Con? && n.agents[1].Con?) && (!q ==> n.agents[e[2]].Con? && n.agents[e[3]].Con?)
    && (!r ==> n.agents[e[0]].Dup? && n.agents[4].Dup?) && n.agents[e[1]].Dup? && n.agents[5].Era? && n.agents[6].Era?
  }

  /** Before (0, 1) is annihilated. */
  ghost predicate SlowFirst(n: Net, e: seq<AgentId>, p: bool)
    requires |e| == 4
  {
    !p ==>
      && Joined(n, AgentPort(0, 0), AgentPort(1, 0)) && Joined(n, AgentPort(e[2], 0), AgentPort(0, 1))
      && Joined(n, AgentPort(e[3], 0), AgentPort(1, 2)) && Joined(n, AgentPort(e[0], 0), AgentPort(0, 2))
      && Joined(n, AgentPort(4, 0), AgentPort(1, 1))
  }

  /** The end of the wire from the first auxiliary port of the first new duplicator. */
  function Left(e: seq<AgentId>, r: bool): PortRef
    requires |e| == 4
  {
    if r then AgentPort(5, 0) else AgentPort(e[0], 1)
  }

  function Right(e: seq<AgentId>, r: bool): PortRef
    requires |e| == 4
  {
    if r then AgentPort(6, 0) else AgentPort(e[0], 2)
  }

  /** The new constructors. */
  ghost predicate SlowSecond(n: Net, e: seq<AgentId>, p: bool, q: bool, r: bool)
    requires |e| == 4
  {
    && (p && !q ==> Joined(n, AgentPort(e[2], 0), AgentPort(e[3], 0)))
    && (!q ==> Joined(n, AgentPort(e[2], 1), Left(e, r)) && Joined(n, AgentPort(e[3], 1), Right(e, r))
               && Joined(n, AgentPort(e[2], 2), AgentPort(e[1], 1)) && Joined(n, AgentPort(e[3], 2), AgentPort(e[1], 2)))
    && (q ==> Joined(n, Left(e, r), AgentPort(e[1], 2)) && Joined(n, Right(e, r), AgentPort(e[1], 1)))
  }

  /** The duplicator 4. */
  ghost predicate SlowThird(n: Net, e: seq<AgentId>, p: bool, q: bool, r: bool)
    requires |e| == 4
  {
    && OnLabel(n, AgentPort(e[1], 0), 1) && (p && !r ==> Joined(n, AgentPort(e[0], 0), AgentPort(4, 0)))
    && (!r ==> Joined(n, AgentPort(4, 1), AgentPort(5, 0)) && Joined(n, AgentPort(4, 2), AgentPort(6, 0)))
  }

  lemma CommuteShape(n: Net)
    requires Start(n)
    ensures Pair(n, 2, 3) && Born(n, 2, 3) == [Dup, Dup, Con, Con]
    ensures Source(n, 2, 3, 0) == AgentPort(2, 1) && Source(n, 2, 3, 1) == AgentPort(2, 2)
    ensures Source(n, 2, 3, 2) == AgentPort(3, 1) && Source(n, 2, 3, 3) == AgentPort(3, 2)
    ensures Inner(n, 2, 3, 0, 1) == (2, 1) && Inner(n, 2, 3, 0, 2) == (3, 1)
    ensures Inner(n, 2, 3, 1, 1) == (2, 2) && Inner(n, 2, 3, 1, 2) == (3, 2)
  {
    StartPairs(n);
    hide Joined, OnLabel, Clean, Diverging;
  }

  ghost predicate Commuted(n: Net, F: seq<AgentId>, m: Net) {
    Sound(n) && Start(n) && Pair(n, 2, 3) && Clean(n, 2, 3) && Reduced(n, 2, 3, F, m)
  }

  lemma ToSlowAgents(n: Net, F: seq<AgentId>, m: Net)
    requires Commuted(n, F, m)
    ensures |F| == 4 && (forall i, j :: 0 <= i < j < 4 ==> F[i] != F[j]) && (forall i :: 0 <= i < 4 ==> F[i] !in {0, 1, 4, 5, 6})
    ensures SlowAgents(m, F, false, false, false)
  {
    hide Reduced, Sound, Clean, Born, Source, Inner, Pair, Joined, OnLabel;
    CommuteShape(n);
    AgentsAfter(n, 2, 3, F, m);
    assert F[0] in F && F[1] in F && F[2] in F && F[3] in F;
    assert forall x :: x in F ==> x == F[0] || x == F[1] || x == F[2] || x == F[3];
    assert forall x :: Survives(n, 2, 3, x) <==> x in {0, 1, 4, 5, 6};
  }

  lemma ToSlowFirst(n: Net, F: seq<AgentId>, m: Net)
    requires Commuted(n, F, m) && |F| == 4
    ensures SlowFirst(m, F, false) && SlowThird(m, F, false, false, false)
  {
    CommuteShape(n);
    hide Reduced, Sound, Clean, Born, Source, Inner, Pair;
    TakesOver(n, 2, 3, F, m, 0, AgentPort(0, 2));
    TakesOver(n, 2, 3, F, m, 2, AgentPort(0, 1));
    TakesOver(n, 2, 3, F, m, 3, AgentPort(1, 2));
    Stays(n, 2, 3, F, m, AgentPort(0, 0), AgentPort(1, 0));
    Stays(n, 2, 3, F, m, AgentPort(4, 0), AgentPort(1, 1));
    TakesOverLabel(n, 2, 3, F, m, 1, 1);
    Stays(n, 2, 3, F, m, AgentPort(4, 1), AgentPort(5, 0));
    Stays(n, 2, 3, F, m, AgentPort(4, 2), AgentPort(6, 0));
  }

  lemma ToSlowSecond(n: Net, F: seq<AgentId>, m: Net)
    requires Commuted(n, F, m) && |F| == 4
    ensures SlowSecond(m, F, false, false, false)
  {
    CommuteShape(n);
    hide Reduced, Sound, Clean, Born, Source, Inner, Pair;
    NewWires(n, 2, 3, F, m, 0, 1);
    NewWires(n, 2, 3, F, m, 0, 2);
    NewWires(n, 2, 3, F, m, 1, 1);
    NewWires(n, 2, 3, F, m, 1, 2);
  }

  lemma ToSlow(n: Net, F: seq<AgentId>, m: Net)
    requires Commuted(n, F, m)
    ensures Slow(m, F, false, false, false)
  {
    hide Commuted, SlowAgents, SlowFirst, SlowSecond, SlowThird;
    ToSlowAgents(n, F, m);
    ToSlowFirst(n, F, m);
    ToSlowSecond(n, F, m);
  }

  // --------------------------------------------------------- the steps after the commutation

  lemma SlowPairs(n: Net, e: seq<AgentId>, p: bool, q: bool, r: bool, a: AgentId, b: AgentId)
    requires Slow(n, e, p, q, r) && Pair(n, a, b)
    ensures (!p && {a, b} == {0, 1}) || (p && !q && {a, b} == {e[2], e[3]}) || (p && !r && {a, b} == {e[0], 4})
  {
    assert n.IsPort(AgentPort(a, 0)) && n.IsPort(AgentPort(b, 0));
  }

  lemma SlowSome(n: Net, e: seq<AgentId>, p: bool, q: bool, r: bool)
    requires Slow(n, e, p, q, r)
    ensures !p ==> Pair(n, 0, 1) && Pair(n, 1, 0) && Clean(n, 0, 1) && Clean(n, 1, 0)
    ensures p && !q ==> Pair(n, e[2], e[3]) && Pair(n, e[3], e[2]) && Clean(n, e[2], e[3]) && Clean(n, e[3], e[2])
    ensures p && !r ==> Pair(n, e[0], 4) && Pair(n, 4, e[0]) && Clean(n, e[0], 4) && Clean(n, 4, e[0])
  {}

  lemma SlowStepFirst(n: Net, e: seq<AgentId>, F: seq<AgentId>, m: Net)
    requires Slow(n, e, false, false, false) && Pair(n, 0, 1) && Reduced(n, 0, 1, F, m)
    ensures Slow(m, e, true, false, false)
  {
    AgentsAfter(n, 0, 1, F, m);
    hide Reduced;
    Joins(n, 0, 1, F, m, AgentPort(e[2], 0), AgentPort(0, 1), AgentPort(1, 2), AgentPort(e[3], 0));
    Joins(n, 0, 1, F, m, AgentPort(e[0], 0), AgentPort(0, 2), AgentPort(1, 1), AgentPort(4, 0));
    Stays(n, 0, 1, F, m, AgentPort(e[2], 1), AgentPort(e[0], 1));
    Stays(n, 0, 1, F, m, AgentPort(e[3], 1), AgentPort(e[0], 2));
    Stays(n, 0, 1, F, m, AgentPort(e[2], 2), AgentPort(e[1], 1));
    Stays(n, 0, 1, F, m, AgentPort(e[3], 2), AgentPort(e[1], 2));
    Stays(n, 0, 1, F, m, AgentPort(4, 1), AgentPort(5, 0));
    Stays(n, 0, 1, F, m, AgentPort(4, 2), AgentPort(6, 0));
    StaysOnLabel(n, 0, 1, F, m, AgentPort(e[1], 0), 1);
  }

  lemma SlowStepSecond(n: Net, e: seq<AgentId>, r: bool, F: seq<AgentId>, m: Net)
    requires Slow(n, e, true, false, r) && Pair(n, e[2], e[3]) && Reduced(n, e[2], e[3], F, m)
    ensures Slow(m, e, true, true, r)
  {
    var a, b := e[2], e[3];
    AgentsAfter(n, a, b, F, m);
    hide Reduced;
    Joins(n, a, b, F, m, Left(e, r), AgentPort(a, 1), AgentPort(b, 2), AgentPort(e[1], 2));
    Joins(n, a, b, F, m, Right(e, r), AgentPort(b, 1), AgentPort(a, 2), AgentPort(e[1], 1));
    if !r {
      Stays(n, a, b, F, m, AgentPort(e[0], 0), AgentPort(4, 0));
      Stays(n, a, b, F, m, AgentPort(4, 1), AgentPort(5, 0));
      Stays(n, a, b, F, m, AgentPort(4, 2), AgentPort(6, 0));
    }
    StaysOnLabel(n, a, b, F, m, AgentPort(e[1], 0), 1);
  }

  lemma SlowStepThird(n: Net, e: seq<AgentId>, q: bool, F: seq<AgentId>, m: Net)
    requires Slow(n, e, true, q, false) && Pair(n, e[0], 4) && Reduced(n, e[0], 4, F, m)
    ensures Slow(m, e, true, q, true)
  {
    var a := e[0];
    AgentsAfter(n, a, 4, F, m);
    hide Reduced;
    var s, t := if q then AgentPort(e[1], 2) else AgentPort(e[2], 1), if q then AgentPort(e[1], 1) else AgentPort(e[3], 1);
    Joins(n, a, 4, F, m, s, AgentPort(a, 1), AgentPort(4, 1), AgentPort(5, 0));
    Joins(n, a, 4, F, m, t, AgentPort(a, 2), AgentPort(4, 2), AgentPort(6, 0));
    if !q {
      Stays(n, a, 4, F, m, AgentPort(e[2], 0), AgentPort(e[3], 0));
      Stays(n, a, 4, F, m, AgentPort(e[2], 2), AgentPort(e[1], 1));
      Stays(n, a, 4, F, m, AgentPort(e[3], 2), AgentPort(e[1], 2));
    }
    StaysOnLabel(n, a, 4, F, m, AgentPort(e[1], 0), 1);
  }

  // ------------------------------------------------------------------------------ all runs

  /** `k` interactions from its end, after the annihilation was first. */
  ghost predicate OnFast(n: Net, k: nat) {
    || (k == 3 && Fast0(n)) || (k == 2 && exists g, h :: Fast1(n, g, h))
    || (k == 1 && exists h :: Fast2(n, h)) || (k == 0 && exists h :: Fast3(n, h))
  }

  function Left3(p: bool, q: bool, r: bool): nat {
    (if p then 0 else 1) + (if q then 0 else 1) + if r then 0 else 1
  }

  /** The same, after the commutation was first. */
  ghost predicate OnSlow(n: Net, k: nat) {
    exists e, p, q, r :: Slow(n, e, p, q, r) && k == Left3(p, q, r)
  }

  /** What is to be known of a net that is `k` interactions from its end. */
  ghost predicate Ahead(n: Net, k: nat) {
    && (forall a: AgentId, b: AgentId :: Pair(n, a, b) ==> Clean(n, a, b)) && (k == 0 ==> forall a: AgentId, b: AgentId :: !Pair(n, a, b))
    && (k > 0 ==> exists a: AgentId, b: AgentId :: Pair(n, a, b))
  }

  /** Reducing the pair, in either order, from a step for one order. */
  lemma EitherWay(n: Net, a: AgentId, b: AgentId, c: AgentId, d: AgentId, F: seq<AgentId>, m: Net)
    requires Pair(n, a, b) && Reduced(n, a, b, F, m) && {a, b} == {c, d} && Pair(n, c, d)
    ensures Reduced(n, c, d, F, m)
  {
    hide Reduced;
    assert (a == c && b == d) || (a == d && b == c);
    if a == d { SwappedStep(n, a, b, F, m); }
  }

  lemma Fast0Pairs(n: Net)
    requires Fast0(n)
    ensures Pair(n, 2, 3) && Clean(n, 2, 3) && forall a: AgentId, b: AgentId :: Pair(n, a, b) ==> a == 2 && b == 3
  {}

  lemma Fast1Pairs(n: Net, g: AgentId, h: AgentId)
    requires Fast1(n, g, h)
    ensures Pair(n, g, 4) && Pair(n, 4, g) && Clean(n, g, 4) && Clean(n, 4, g)
    ensures forall a: AgentId, b: AgentId :: Pair(n, a, b) ==> {a, b} == {g, 4}
  {}

  lemma Fast2Pairs(n: Net, h: AgentId)
    requires Fast2(n, h)
    ensures Pair(n, 5, 6) && Pair(n, 6, 5) && Clean(n, 5, 6) && Clean(n, 6, 5)
    ensures forall a: AgentId, b: AgentId :: Pair(n, a, b) ==> {a, b} == {5, 6}
  {}

  lemma Fast3Pairs(n: Net, h: AgentId, a: AgentId, b: AgentId)
    requires Fast3(n, h)
    ensures !Pair(n, a, b)
  {}

  lemma PairSame(a: AgentId, b: AgentId, c: AgentId, d: AgentId)
    requires {a, b} == {c, d} && c != d
    ensures (a == c && b == d) || (a == d && b == c)
  {}

  lemma FastAhead(n: Net, k: nat)
    requires OnFast(n, k)
    ensures Ahead(n, k)
  {
    hide Clean, Pair, Fast0, Fast1, Fast2, Fast3;
    if k == 3 {
      Fast0Pairs(n);
    } else if k == 2 {
      var g, h :| Fast1(n, g, h);
      Fast1Pairs(n, g, h);
      forall a: AgentId, b: AgentId | Pair(n, a, b) ensures Clean(n, a, b) { PairSame(a, b, g, 4); }
    } else if k == 1 {
      var h :| Fast2(n, h);
      Fast2Pairs(n, h);
      forall a: AgentId, b: AgentId | Pair(n, a, b) ensures Clean(n, a, b) { PairSame(a, b, 5, 6); }
    } else {
      var h :| Fast3(n, h);
      forall a: AgentId, b: AgentId ensures !Pair(n, a, b) { Fast3Pairs(n, h, a, b); }
    }
  }

  lemma FastStep(n: Net, k: nat, a: AgentId, b: AgentId, F: seq<AgentId>, m: Net)
    requires Sound(n) && OnFast(n, k) && Pair(n, a, b) && Reduced(n, a, b, F, m)
    ensures k > 0 && OnFast(m, k - 1)
  {
    hide Clean, Pair, Fast0, Fast1, Fast2, Fast3, Sound, Reduced;
    if k == 3 {
      Fast0Pairs(n);
      ToFast1(n, F, m);
    } else if k == 2 {
      var g, h :| Fast1(n, g, h);
      Fast1Pairs(n, g, h);
      EitherWay(n, a, b, g, 4, F, m);
      ToFast2(n, g, h, F, m);
    } else if k == 1 {
      var h :| Fast2(n, h);
      Fast2Pairs(n, h);
      EitherWay(n, a, b, 5, 6, F, m);
      ToFast3(n, h, F, m);
    } else {
      var h :| Fast3(n, h);
      Fast3Pairs(n, h, a, b);
    }
  }

  lemma SlowAhead(n: Net, k: nat)
    requires OnSlow(n, k)
    ensures Ahead(n, k)
  {
    hide Clean, Pair, Slow;
    var e, p, q, r :| Slow(n, e, p, q, r) && k == Left3(p, q, r);
    SlowSome(n, e, p, q, r);
    SlowOrder(n, e, p, q, r);
    forall a: AgentId, b: AgentId | Pair(n, a, b) ensures Clean(n, a, b) && k > 0 {
      SlowPairs(n, e, p, q, r, a, b);
      if !p { PairSame(a, b, 0, 1); }
      else if {a, b} == {e[2], e[3]} { PairSame(a, b, e[2], e[3]); }
      else { PairSame(a, b, e[0], 4); }
    }
  }

  lemma SlowOrder(n: Net, e: seq<AgentId>, p: bool, q: bool, r: bool)
    requires Slow(n, e, p, q, r)
    ensures |e| == 4 && e[2] != e[3] && e[0] != 4 && (q ==> p) && (r ==> p)
  {}

  lemma SlowStep(n: Net, k: nat, a: AgentId, b: AgentId, F: seq<AgentId>, m: Net)
    requires OnSlow(n, k) && Pair(n, a, b) && Reduced(n, a, b, F, m)
    ensures k > 0 && OnSlow(m, k - 1)
  {
    hide Clean, Pair, Slow, Reduced;
    var e, p, q, r :| Slow(n, e, p, q, r) && k == Left3(p, q, r);
    SlowSome(n, e, p, q, r);
    SlowOrder(n, e, p, q, r);
    SlowPairs(n, e, p, q, r, a, b);
    if !p {
      EitherWay(n, a, b, 0, 1, F, m);
      SlowStepFirst(n, e, F, m);
    } else if !q && {a, b} == {e[2], e[3]} {
      EitherWay(n, a, b, e[2], e[3], F, m);
      SlowStepSecond(n, e, r, F, m);
    } else {
      EitherWay(n, a, b, e[0], 4, F, m);
      SlowStepThird(n, e, q, F, m);
    }
  }

  ghost predicate At(n: Net, fast: bool, k: nat) {
    Sound(n) && AllocOk(n) && if fast then OnFast(n, k) else OnSlow(n, k)
  }

  lemma AtAhead(n: Net, fast: bool, k: nat)
    requires At(n, fast, k)
    ensures Sound(n) && AllocOk(n) && Ahead(n, k)
  {
    hide Sound, AllocOk, OnFast, OnSlow, Ahead;
    if fast { FastAhead(n, k); } else { SlowAhead(n, k); }
  }

  lemma AtMove(n: Net, fast: bool, k: nat, s: Move)
    requires At(n, fast, k) && Enabled(n, s)
    ensures k > 0 && At(Take(n, s), fast, k - 1)
  {
    hide Sound, AllocOk, OnFast, OnSlow, Reduced, Take, Clean;
    AtAhead(n, fast, k);
    var F := TakeIsStep(n, s);
    if fast { FastStep(n, k, s.a, s.b, F, Take(n, s)); } else { SlowStep(n, k, s.a, s.b, F, Take(n, s)); }
  }

  lemma {:induction false} AtRun(n: Net, fast: bool, k: nat, run: seq<Move>)
    requires At(n, fast, k) && Legal(n, run)
    ensures |run| <= k && At(After(n, run), fast, k - |run|)
    decreases |run|
  {
    hide At, Take, Enabled;
    if run != [] {
      AtMove(n, fast, k, run[0]);
      AtRun(Take(n, run[0]), fast, k - 1, run[1..]);
    }
  }

  lemma AtEnd(n: Net, fast: bool, k: nat)
    requires At(n, fast, k)
    ensures AllClean(n) && (R.IsNormalForm(n) <==> k == 0)
  {
    AtAhead(n, fast, k);
    hide Sound, AllocOk, OnFast, OnSlow, Clean, At;
    if k > 0 {
      var a: AgentId, b: AgentId :| Pair(n, a, b);
      assert Faces(n, a, b);
    } else {
      forall x, y ensures !Faces(n, x, y) {
        if Faces(n, x, y) { R.FacesIsPair(n, x, y); }
      }
    }
  }

  /** The net after the first move. */
  lemma FirstMove(n: Net, s: Move)
    requires Begin(n) && Enabled(n, s)
    ensures At(Take(n, s), s.a != 2, 3)
  {
    StartPairs(n);
    StartOnly(n, s.a, s.b);
    hide Sound, AllocOk, Start, Reduced, Take, Clean, Pair, OnFast, OnSlow, Slow, Fast0;
    var F := TakeIsStep(n, s);
    if s.a == 2 {
      ToSlow(n, F, Take(n, s));
      assert Left3(false, false, false) == 3;
      assert OnSlow(Take(n, s), 3) by { IsOnSlow(Take(n, s), F, false, false, false); }
    } else {
      EitherWay(n, s.a, s.b, 0, 1, F, Take(n, s));
      ToFast0(n, F, Take(n, s));
      assert OnFast(Take(n, s), 3) by { IsOnFast(Take(n, s)); }
    }
  }

  lemma IsOnSlow(n: Net, e: seq<AgentId>, p: bool, q: bool, r: bool)
    requires Slow(n, e, p, q, r)
    ensures OnSlow(n, Left3(p, q, r))
  {
    hide Slow;
  }

  lemma IsOnFast(n: Net)
    requires Fast0(n)
    ensures OnFast(n, 3)
  {
    hide Fast0;
  }

  ghost predicate Begin(n: Net) {
    Start(n) && Sound(n) && AllocOk(n)
  }

  /** What is known of the net at the start. */
  lemma BeginNow(n: Net)
    requires Begin(n)
    ensures AllClean(n) && !R.IsNormalForm(n) && TwoPairs(n, 0, 1, 2, 3) && Diverging(n, 0, 1, 2, 3)
  {
    StartPairs(n);
    assert Faces(n, 0, 1);
    hide Start, Clean, Sound, AllocOk;
    forall a: AgentId, b: AgentId | Pair(n, a, b) ensures Clean(n, a, b) { StartOnly(n, a, b); }
  }

  lemma BeginRuns(n: Net, run: seq<Move>)
    requires Begin(n) && Legal(n, run)
    ensures |run| <= 4 && AllClean(After(n, run)) && (R.IsNormalForm(After(n, run)) <==> |run| == 4)
  {
    hide At, Take, Enabled, AllClean, R.IsNormalForm, Begin, TwoPairs, Diverging;
    BeginNow(n);
    if run != [] {
      FirstMove(n, run[0]);
      AtRun(Take(n, run[0]), run[0].a != 2, 3, run[1..]);
      AtEnd(After(n, run), run[0].a != 2, 4 - |run|);
    }
  }

  /** How many agents are left. */
  lemma EndSize(n: Net, fast: bool)
    requires At(n, fast, 0)
    ensures |n.agents.Keys| == if fast then 1 else 3
  {
    hide Sound, AllocOk, Joined, OnLabel;
    if fast {
      var h: AgentId :| Fast3(n, h);
      assert n.agents.Keys == {h};
    } else {
      var e, p, q, r :| Slow(n, e, p, q, r) && 0 == Left3(p, q, r);
      SlowEnd(n, e);
    }
  }

  lemma SlowEnd(n: Net, e: seq<AgentId>)
    requires Slow(n, e, true, true, true)
    ensures |n.agents.Keys| == 3
  {
    hide Joined, OnLabel;
    assert n.agents.Keys == {e[1], 5, 6};
  }

  lemma BeginClear(n: Net)
    requires Begin(n)
    ensures Clear(n) && Bounded(n, 4)
  {
    hide Legal, After, AllClean, R.IsNormalForm, Sound, AllocOk, Start;
    forall run | Legal(n, run) ensures AllClean(After(n, run)) && |run| <= 4 { BeginRuns(n, run); }
  }

  lemma Branch(n: Net, s: Move) returns (run: seq<Move>)
    requires Begin(n) && Enabled(n, s)
    ensures Legal(n, run) && R.IsNormalForm(After(n, run)) && |After(n, run).agents.Keys| == if s.a != 2 then 1 else 3
  {
    hide Begin, Clear, Bounded, Enabled, Take, At, R.IsNormalForm, Reduced, Clean, AllClean;
    BeginClear(n);
    var F := ClearMove(n, s);
    BoundedMove(n, s, 4);
    var rest := Normalises(Take(n, s), 3);
    Prefixed(n, s, rest);
    run := [s] + rest;
    BeginRuns(n, run);
    FirstMove(n, s);
    AtRun(Take(n, s), s.a != 2, 3, rest);
    EndSize(After(n, run), s.a != 2);
  }

  lemma TwoBranches(n: Net) returns (run: seq<Move>, other: seq<Move>)
    requires Begin(n)
    ensures Legal(n, run) && R.IsNormalForm(After(n, run)) && Legal(n, other) && R.IsNormalForm(After(n, other))
    ensures !Isomorphic(After(n, run), After(n, other))
  {
    StartPairs(n);
    hide Begin, Start, Clean, Diverging, Legal, After, R.IsNormalForm, Isomorphic, Take, Pair;
    run := Branch(n, Move(0, 1, []));
    other := Branch(n, Move(2, 3, []));
    if Isomorphic(After(n, run), After(n, other)) { SizesAgree(After(n, run), After(n, other)); }
  }

  lemma SplitBegins()
    ensures Begin(SPLIT_LOOP)
  {
    hide Start, Sound, AllocOk;
    SplitStarts();
    SplitAlloc();
    StartSound(SPLIT_LOOP);
  }

  /** The loop that the annihilation closes diverges, and the normal forms differ; yet every
      order takes four interactions. */
  lemma SplitKeepsCount() returns (run: seq<Move>, other: seq<Move>)
    ensures TwoPairs(SPLIT_LOOP, 0, 1, 2, 3) && Diverging(SPLIT_LOOP, 0, 1, 2, 3) && Clear(SPLIT_LOOP)
    ensures forall r :: Legal(SPLIT_LOOP, r) ==> |r| <= 4 && (R.IsNormalForm(After(SPLIT_LOOP, r)) <==> |r| == 4)
    ensures Legal(SPLIT_LOOP, run) && R.IsNormalForm(After(SPLIT_LOOP, run))
    ensures Legal(SPLIT_LOOP, other) && R.IsNormalForm(After(SPLIT_LOOP, other))
    ensures !Isomorphic(After(SPLIT_LOOP, run), After(SPLIT_LOOP, other))
  {
    var n := SPLIT_LOOP;
    hide Begin, Clear, Diverging, TwoPairs, Legal, After, R.IsNormalForm, Isomorphic, AllClean;
    SplitBegins();
    BeginNow(n);
    BeginClear(n);
    forall r | Legal(n, r) ensures |r| <= 4 && (R.IsNormalForm(After(n, r)) <==> |r| == 4) { BeginRuns(n, r); }
    run, other := TwoBranches(n);
  }
}
