/** The coded rules, with their own allocation of ids, are strongly confluent. */
module RulesConfluence {
  import opened Nets
  import opened NetOps
  import opened NetIsomorphism
  import opened Interaction
  import opened Confluence
  import opened Rules
  import opened Rejoining

  /** Once (a, b) is gone the pair (c, d) is clean, read off the wires of `n`. */
  ghost predicate CleanThrough(n: Net, a: AgentId, b: AgentId, c: AgentId, d: AgentId)
    requires TwoPairs(n, a, b, c, d)
  {
    if Anni(n, c, d) then
      var i := if n.agents[c].Con? then 1 else 2;
      var (s, t) := (n.Target(AgentPort(c, 1)), n.Target(AgentPort(c, 2)));
      End(n, a, b, s) == AgentPort(d, i) <==> End(n, a, b, t) == AgentPort(d, 3 - i)
    else if n.agents[d].Era? then true
    else forall i, j {:trigger AgentPort(c, i), AgentPort(d, j)} ::
      1 <= i <= 2 && 1 <= j <= 2 ==> End(n, a, b, n.Target(AgentPort(c, i))) != AgentPort(d, j)
  }

  /** Both pairs are clean in `n`, and each is still clean once the other is gone. */
  ghost predicate CleanEitherWay(n: Net, a: AgentId, b: AgentId, c: AgentId, d: AgentId) {
    && Sound(n) && AllocOk(n) && TwoPairs(n, a, b, c, d) && Clean(n, a, b) && Clean(n, c, d)
    && CleanThrough(n, a, b, c, d) && CleanThrough(n, c, d, a, b)
  }

  /** A wire of the second pair meets it again after the step exactly if it did so through
      the first pair. */
  lemma WireThrough(n: Net, a: AgentId, b: AgentId, c: AgentId, d: AgentId, F: seq<AgentId>, mid: Net, i: nat, j: nat)
    requires Sound(n) && TwoPairs(n, a, b, c, d) && Reduced(n, a, b, F, mid)
    requires n.IsPort(AgentPort(c, i)) && n.IsPort(AgentPort(d, j))
    ensures mid.Target(AgentPort(c, i)) == AgentPort(d, j) <==> End(n, a, b, n.Target(AgentPort(c, i))) == AgentPort(d, j)
  {
    assert mid.Target(AgentPort(c, i)) == Follow(n, a, b, F, n.Target(AgentPort(c, i)));
    assert forall k :: 0 <= k < |F| ==> F[k] != d;
  }

  lemma CleanAfter(n: Net, a: AgentId, b: AgentId, c: AgentId, d: AgentId, F: seq<AgentId>, mid: Net)
    requires Sound(n) && TwoPairs(n, a, b, c, d) && Reduced(n, a, b, F, mid) && Pair(mid, c, d)
    ensures Clean(mid, c, d) <==> CleanThrough(n, a, b, c, d)
  {
    assert mid.agents[c] == n.agents[c] && mid.agents[d] == n.agents[d];
    if !n.agents[c].Era? && !n.agents[d].Era? {
      hide Sound, Reduced, End, Pair;
      forall i, j | 1 <= i <= 2 && 1 <= j <= 2
        ensures mid.Target(AgentPort(c, i)) == AgentPort(d, j) <==> End(n, a, b, n.Target(AgentPort(c, i))) == AgentPort(d, j)
      {
        WireThrough(n, a, b, c, d, F, mid, i, j);
      }
    }
  }

  /** The run that applies the rule to (a, b) and then to (c, d). */
  lemma RunOf(n: Net, a: AgentId, b: AgentId, c: AgentId, d: AgentId) returns (R: Run)
    requires CleanEitherWay(n, a, b, c, d)
    ensures Pair(Apply(n, a, b), c, d) && Valid(R) && Sound(R.m) && AllocOk(R.m)
    ensures R.n == n && R.a == a && R.b == b && R.c == c && R.d == d && R.m == Apply(Apply(n, a, b), c, d)
  {
    var mid := Apply(n, a, b);
    hide Apply, Reduced, Clean, Sound, AllocOk, CleanThrough;
    var F := ApplyIsStep(n, a, b);
    ReducedSound(n, a, b, F, mid);
    PairSurvives(n, a, b, c, d, F, mid);
    CleanAfter(n, a, b, c, d, F, mid);
    var G := ApplyIsStep(mid, c, d);
    R := Run(n, a, b, c, d, F, mid, G, Apply(mid, c, d));
    ReducedSound(mid, c, d, G, R.m);
  }

  /** Reducing two active pairs in either order gives isomorphic nets, exactly
      unless one annihilation closes a loop on the other pair. */
  lemma EitherOrder(n: Net, a: AgentId, b: AgentId, c: AgentId, d: AgentId)
    requires CleanEitherWay(n, a, b, c, d)
    ensures Pair(Apply(n, a, b), c, d) && Pair(Apply(n, c, d), a, b)
    ensures Isomorphic(Apply(Apply(n, a, b), c, d), Apply(Apply(n, c, d), a, b)) <==> !LoopClosed(n, a, b, c, d)
  {
    var R := RunOf(n, a, b, c, d);
    var S := RunOf(n, c, d, a, b);
    hide Apply, Valid, Clean, Sound, AllocOk, Isomorphic, LoopClosed;
    StrongConfluence(R, S);
  }

  /** The two orders as runs, where (a, b) annihilates and (c, d) does not. */
  lemma RaceOf(n: Net, a: AgentId, b: AgentId, c: AgentId, d: AgentId) returns (R: Run, S: Run)
    requires CleanEitherWay(n, a, b, c, d) && Anni(n, a, b) && !Anni(n, c, d)
    ensures Race(R, S) && Sound(S.m) && AllocOk(S.m)
    ensures R.n == n && R.a == a && R.b == b && R.c == c && R.d == d
    ensures Pair(Apply(n, a, b), c, d) && Pair(Apply(n, c, d), a, b)
    ensures R.m == Apply(Apply(n, a, b), c, d) && S.m == Apply(Apply(n, c, d), a, b)
  {
    hide Apply, Valid, Clean, Sound, AllocOk, CleanThrough;
    R := RunOf(n, a, b, c, d);
    S := RunOf(n, c, d, a, b);
  }

  /** Applying the rule to a pair that leaves nothing. */
  lemma VanishOf(m: Net, e: AgentId, f: AgentId)
    requires Sound(m) && AllocOk(m) && CleanPair(m, e, f) && FacingPair(m, e, f)
    ensures Reduced(m, e, f, [], Apply(m, e, f)) && Sound(Apply(m, e, f)) && AllocOk(Apply(m, e, f))
  {
    hide Apply, Sound, AllocOk;
    var F := ApplyIsStep(m, e, f);
    assert F == [];
    ReducedSound(m, e, f, F, Apply(m, e, f));
  }

  /** Reducing the pair (e, f) of `slow` makes it the same net as `fast`. */
  ghost predicate RejoinsBy(fast: Net, slow: Net, e: AgentId, f: AgentId) {
    CleanPair(slow, e, f) && Isomorphic(fast, Apply(slow, e, f))
  }

  lemma RaceRejoins(R: Run, S: Run, x: AgentId) returns (e: AgentId, f: AgentId)
    requires Race(R, S) && Sound(S.m) && AllocOk(S.m) && Shut(R, S, x) && !(Shut(R, S, R.c) && Shut(R, S, R.d))
    ensures CleanPair(S.m, e, f) && !Survives(R.n, R.c, R.d, e) && !Survives(R.n, R.c, R.d, f)
    ensures RejoinsBy(R.m, S.m, e, f) <==> !(x == R.d && !Loop(R.n, R.c))
  {
    hide Apply, Clean, Sound, AllocOk, Race, Shut, Loop, Reduced, Isomorphic, Twin;
    TwinsClean(R, S, x);
    TwinsFace(R, S, x);
    e, f := S.F[Twin(R, x)], S.F[Twin(R, x) + 1];
    VanishOf(S.m, e, f);
    OneLoop(R, S, x, Apply(S.m, e, f));
    NewIds(R, S, Twin(R, x));
    NewIds(R, S, Twin(R, x) + 1);
  }

  /** A loop is closed on one agent of the other pair: the order that reduces that pair first
      has created one more active pair. Reducing it rejoins the other order, unless the loop is
      on a duplicator that faces a constructor without one. */
  lemma LoopRejoins(n: Net, a: AgentId, b: AgentId, c: AgentId, d: AgentId) returns (e: AgentId, f: AgentId)
    requires CleanEitherWay(n, a, b, c, d) && Anni(n, a, b) && !Anni(n, c, d)
    requires Closes(n, a, b, c) != Closes(n, a, b, d)
    ensures Pair(Apply(n, a, b), c, d) && Pair(Apply(n, c, d), a, b)
    ensures CleanPair(Apply(Apply(n, c, d), a, b), e, f) && !Survives(n, c, d, e) && !Survives(n, c, d, f)
    ensures RejoinsBy(Apply(Apply(n, a, b), c, d), Apply(Apply(n, c, d), a, b), e, f)
       <==> !(Closes(n, a, b, d) && !Loop(n, c))
  {
    hide Apply, CleanEitherWay, Race, Closes, Loop, Anni, RejoinsBy, Pair, CleanPair;
    var R, S := RaceOf(n, a, b, c, d);
    RacePairs(R, S);
    e, f := RaceRejoins(R, S, if Closes(n, a, b, c) then c else d);
  }

  lemma NewIds(R: Run, S: Run, k: nat)
    requires Race(R, S) && k < |S.F|
    ensures !Survives(R.n, R.c, R.d, S.F[k])
  {}

  /** Loops are closed on both agents of the other pair: two more active pairs, and reducing
      both rejoins the other order. */
  lemma LoopsRejoin(n: Net, a: AgentId, b: AgentId, c: AgentId, d: AgentId)
    returns (e: AgentId, f: AgentId, g: AgentId, h: AgentId)
    requires CleanEitherWay(n, a, b, c, d) && Anni(n, a, b) && !Anni(n, c, d)
    requires Closes(n, a, b, c) && Closes(n, a, b, d)
    ensures Pair(Apply(n, a, b), c, d) && Pair(Apply(n, c, d), a, b)
    ensures var fast, slow := Apply(Apply(n, a, b), c, d), Apply(Apply(n, c, d), a, b);
      && CleanPair(slow, e, f) && CleanPair(Apply(slow, e, f), g, h)
      && Isomorphic(fast, Apply(Apply(slow, e, f), g, h))
  {
    hide Apply, Clean, Sound, AllocOk, CleanThrough, CleanEitherWay, Race, Closes, Loop, Reduced, Anni, Isomorphic, Twin;
    var R, S := RaceOf(n, a, b, c, d);
    TwinOfC(R, S);
    SlowCount(R, S, c);
    TwinsClean(R, S, c);
    TwinsFace(R, S, c);
    e, f, g, h := S.F[0], S.F[1], S.F[2], S.F[3];
    VanishOf(S.m, e, f);
    var w := Apply(S.m, e, f);
    FourthPair(R, S, w);
    VanishOf(w, g, h);
    TwoLoops(R, S, w, Apply(w, g, h));
  }
}
