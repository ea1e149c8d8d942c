/** Runs: interactions one after the other, in any order, of the same and of isomorphic nets. */
module Runs {
  import opened Nets
  import opened NetOps
  import opened NetIsomorphism
  import opened Interaction
  import opened Backtracking
  import Confluence
  import opened Rules
  import opened Engine
  import R = Reducer
  import Transport

  /** One interaction: the pair, and whatever the queue of candidates holds at that time. */
  datatype Move = Move(a: AgentId, b: AgentId, queue: seq<(AgentId, AgentId)>)

  ghost predicate Enabled(n: Net, s: Move) {
    Pair(n, s.a, s.b)
  }

  ghost function Take(n: Net, s: Move): Net
    requires Enabled(n, s)
  {
    Apply(n.(redexes := s.queue), s.a, s.b)
  }

  /** Every move reduces a pair that is active when its turn comes. */
  ghost predicate Legal(n: Net, run: seq<Move>)
    decreases |run|
  {
    run == [] || (Enabled(n, run[0]) && Legal(Take(n, run[0]), run[1..]))
  }

  ghost function After(n: Net, run: seq<Move>): Net
    requires Legal(n, run)
    decreases |run|
  {
    if run == [] then n else After(Take(n, run[0]), run[1..])
  }

  /** Every pair that can be met is clean. */
  ghost predicate Clear(n: Net) {
    Sound(n) && AllocOk(n) && forall run :: Legal(n, run) ==> AllClean(After(n, run))
  }

  ghost predicate AllClean(n: Net) {
    forall a, b :: Pair(n, a, b) ==> Clean(n, a, b)
  }

  lemma ClearNow(n: Net)
    requires Clear(n)
    ensures Sound(n) && AllocOk(n) && AllClean(n)
  {
    assert Legal(n, []) && After(n, []) == n;
  }

  lemma SameFollow(n: Net, n': Net, a: AgentId, b: AgentId, F: seq<AgentId>, r: PortRef)
    requires n' == n.(redexes := n'.redexes) && Pair(n, a, b) && Pair(n', a, b)
    ensures Follow(n', a, b, F, r) == Follow(n, a, b, F, r)
  {
    assert forall p :: n'.Target(p) == n.Target(p);
  }

  lemma SameBorn(n: Net, n': Net, a: AgentId, b: AgentId)
    requires n' == n.(redexes := n'.redexes) && Pair(n, a, b) && Pair(n', a, b)
    ensures Born(n', a, b) == Born(n, a, b)
    ensures forall k :: 0 <= k < |Born(n, a, b)| ==> Source(n', a, b, k) == Source(n, a, b, k)
    ensures forall k, j :: 0 <= k < |Born(n, a, b)| && 1 <= j <= 2 ==> Inner(n', a, b, k, j) == Inner(n, a, b, k, j)
  {
    assert Loop(n', a) == Loop(n, a) && Loop(n', b) == Loop(n, b);
  }

  /** The queue plays no part in a step. */
  lemma SameReduced(n: Net, n': Net, a: AgentId, b: AgentId, F: seq<AgentId>, m: Net)
    requires n' == n.(redexes := n'.redexes) && Pair(n, a, b) && Pair(n', a, b) && Reduced(n', a, b, F, m)
    ensures Reduced(n, a, b, F, m)
  {
    hide Follow, Born, Source, Inner, Pair;
    SameBorn(n, n', a, b);
    forall r ensures Follow(n', a, b, F, r) == Follow(n, a, b, F, r) { SameFollow(n, n', a, b, F, r); }
    assert forall p :: n'.Target(p) == n.Target(p);
  }

  lemma TakeIsStep(n: Net, s: Move) returns (F: seq<AgentId>)
    requires Sound(n) && AllocOk(n) && Enabled(n, s) && Clean(n, s.a, s.b)
    ensures Reduced(n, s.a, s.b, F, Take(n, s)) && Sound(Take(n, s)) && AllocOk(Take(n, s))
  {
    var n' := n.(redexes := s.queue);
    assert Sound(n') by { assert forall p :: n'.Target(p) == n.Target(p); }
    R.SamePair(n, n', s.a, s.b);
    assert AllocOk(n');
    hide Apply, Sound, Clean, AllocOk, Reduced;
    F := ApplyIsStep(n', s.a, s.b);
    SameReduced(n, n', s.a, s.b, F, Take(n, s));
    ReducedSound(n, s.a, s.b, F, Take(n, s));
  }

  lemma Prefixed(n: Net, s: Move, run: seq<Move>)
    requires Enabled(n, s) && Legal(Take(n, s), run)
    ensures Legal(n, [s] + run) && After(n, [s] + run) == After(Take(n, s), run)
  {
    assert ([s] + run)[1..] == run;
  }

  /** A move in a clear net is a step of a clean pair, to a clear net. */
  lemma ClearMove(n: Net, s: Move) returns (F: seq<AgentId>)
    requires Clear(n) && Enabled(n, s)
    ensures Clean(n, s.a, s.b) && Reduced(n, s.a, s.b, F, Take(n, s)) && Clear(Take(n, s))
  {
    ClearNow(n);
    F := TakeIsStep(n, s);
    hide Apply, Take, AllClean, Sound, AllocOk, Reduced, Enabled;
    forall run | Legal(Take(n, s), run) ensures AllClean(After(Take(n, s), run)) { Prefixed(n, s, run); }
  }

  // -------------------------------------------------------------------- isomorphic nets

  lemma Reflexive(n: Net)
    ensures Isomorphic(n, n)
  {
    hide Isomorphism;
    var f := Transport.IdentityIsomorphism(n);
  }

  lemma Transitive(n: Net, m: Net, k: Net)
    requires Isomorphic(n, m) && Isomorphic(m, k) && n.WellFormed()
    ensures Isomorphic(n, k)
  {
    var f :| Isomorphism(n, m, f);
    var g :| Isomorphism(m, k, g);
    hide Isomorphic, Isomorphism;
    ComposeBijection(n, m, k, f, g);
    forall p | n.IsPort(p) ensures k.Target(MapPort(Compose(f, g), p)) == MapPort(Compose(f, g), n.Target(p)) {
      ComposeWire(n, m, k, f, g, p);
    }
    Transport.MakeIsomorphic(n, k, Compose(f, g));
  }

  ghost function Compose(f: Mapping, g: Mapping): Mapping {
    map x | x in f && f[x] in g :: g[f[x]]
  }

  lemma ComposeAt(n: Net, m: Net, k: Net, f: Mapping, g: Mapping, x: AgentId)
    requires Isomorphism(n, m, f) && Isomorphism(m, k, g) && x in n.agents
    ensures x in f && f[x] in g && x in Compose(f, g) && Compose(f, g)[x] == g[f[x]]
    ensures g[f[x]] in k.agents && k.agents[g[f[x]]] == n.agents[x]
  {
    Transport.AgentImage(n, m, f, x);
    Transport.AgentImage(m, k, g, f[x]);
    hide Isomorphism;
  }

  lemma ComposeApart(n: Net, m: Net, k: Net, f: Mapping, g: Mapping, x: AgentId, y: AgentId)
    requires Isomorphism(n, m, f) && Isomorphism(m, k, g) && x in n.agents && y in n.agents && x != y
    ensures x in Compose(f, g) && y in Compose(f, g) && Compose(f, g)[x] != Compose(f, g)[y]
  {
    hide Isomorphism, Compose;
    ComposeAt(n, m, k, f, g, x);
    ComposeAt(n, m, k, f, g, y);
    Transport.AgentImage(n, m, f, x);
    Transport.AgentImage(n, m, f, y);
    Transport.ImagesApart(n, m, f, x, y);
    Transport.ImagesApart(m, k, g, f[x], f[y]);
  }

  lemma ComposeOnto(n: Net, m: Net, k: Net, f: Mapping, g: Mapping, z: AgentId)
    requires Isomorphism(n, m, f) && Isomorphism(m, k, g) && z in k.agents
    ensures z in Compose(f, g).Values
  {
    hide Isomorphism, Compose;
    var y := Transport.ImageOnto(m, k, g, z);
    var x := Transport.ImageOnto(n, m, f, y);
    ComposeAt(n, m, k, f, g, x);
  }

  lemma ComposeKeys(n: Net, m: Net, f: Mapping, g: Mapping, x: AgentId)
    requires Isomorphism(n, m, f) && x in Compose(f, g)
    ensures x in n.agents
  {}

  lemma ComposeBijection(n: Net, m: Net, k: Net, f: Mapping, g: Mapping)
    requires Isomorphism(n, m, f) && Isomorphism(m, k, g)
    ensures AgentBijection(n, k, Compose(f, g))
  {
    hide Isomorphism, Compose;
    var h := Compose(f, g);
    forall x ensures x in h <==> x in n.agents {
      if x in n.agents { ComposeAt(n, m, k, f, g, x); }
      if x in h { ComposeKeys(n, m, f, g, x); }
    }
    forall x | x in h ensures h[x] in k.agents && k.agents[h[x]] == n.agents[x] { ComposeAt(n, m, k, f, g, x); }
    forall x, y | x in h && y in h && x != y ensures h[x] != h[y] { ComposeApart(n, m, k, f, g, x, y); }
    forall z ensures z in h.Values <==> z in k.agents {
      if z in k.agents { ComposeOnto(n, m, k, f, g, z); }
    }
  }

  lemma ComposePort(n: Net, m: Net, k: Net, f: Mapping, g: Mapping, r: PortRef)
    requires Isomorphism(n, m, f) && Isomorphism(m, k, g) && (r.AgentPort? ==> r.id in n.agents)
    ensures MapPort(Compose(f, g), r) == MapPort(g, MapPort(f, r))
  {
    if r.AgentPort? { ComposeAt(n, m, k, f, g, r.id); }
    hide Isomorphism;
  }

  lemma ComposeWire(n: Net, m: Net, k: Net, f: Mapping, g: Mapping, p: PortRef)
    requires Isomorphism(n, m, f) && Isomorphism(m, k, g) && n.IsPort(p) && n.WellFormed()
    ensures k.Target(MapPort(Compose(f, g), p)) == MapPort(Compose(f, g), n.Target(p))
  {
    hide Isomorphism, Compose, MapPort;
    Transport.PortImage(n, m, f, p);
    Transport.PortImage(m, k, g, MapPort(f, p));
    ComposePort(n, m, k, f, g, p);
    ComposePort(n, m, k, f, g, n.Target(p));
  }

  lemma Symmetric(n: Net, m: Net)
    requires Isomorphic(n, m) && n.WellFormed()
    ensures Isomorphic(m, n)
  {
    var f :| Isomorphism(n, m, f);
    hide Isomorphic, Isomorphism;
    InverseBijection(n, m, f);
    forall q | m.IsPort(q) ensures n.Target(MapPort(Inverted(f), q)) == MapPort(Inverted(f), m.Target(q)) {
      InverseWire(n, m, f, q);
    }
    Transport.MakeIsomorphic(m, n, Inverted(f));
  }

  ghost function Inverted(f: Mapping): Mapping {
    map y | y in f.Values :: Origin(f, y)
  }

  ghost function Origin(f: Mapping, y: AgentId): (x: AgentId)
    requires y in f.Values
    ensures x in f && f[x] == y
  {
    var x :| x in f && f[x] == y;
    x
  }

  lemma InverseAt(n: Net, m: Net, f: Mapping, x: AgentId)
    requires Isomorphism(n, m, f) && x in n.agents
    ensures x in f && f[x] in m.agents && m.agents[f[x]] == n.agents[x] && f[x] in Inverted(f) && Inverted(f)[f[x]] == x
  {
    Transport.AgentImage(n, m, f, x);
    var z := Origin(f, f[x]);
    OriginLive(n, m, f, f[x]);
    hide Isomorphism;
    if z != x { Transport.ImagesApart(n, m, f, x, z); }
  }

  lemma OriginLive(n: Net, m: Net, f: Mapping, y: AgentId)
    requires Isomorphism(n, m, f) && y in f.Values
    ensures Origin(f, y) in n.agents && y in m.agents
  {}

  lemma InverseBijection(n: Net, m: Net, f: Mapping)
    requires Isomorphism(n, m, f)
    ensures AgentBijection(m, n, Inverted(f))
  {
    hide Isomorphism;
    var g := Inverted(f);
    forall y ensures y in g <==> y in m.agents {
      if y in m.agents {
        var x := Transport.ImageOnto(n, m, f, y);
        InverseAt(n, m, f, x);
      }
      if y in g { OriginLive(n, m, f, y); }
    }
    forall y | y in g ensures g[y] in n.agents && n.agents[g[y]] == m.agents[y] {
      OriginLive(n, m, f, y);
      InverseAt(n, m, f, Origin(f, y));
    }
    forall x ensures x in g.Values <==> x in n.agents {
      if x in n.agents { InverseAt(n, m, f, x); }
    }
  }

  lemma InversePort(n: Net, m: Net, f: Mapping, r: PortRef)
    requires Isomorphism(n, m, f) && (r.AgentPort? ==> r.id in n.agents)
    ensures MapPort(Inverted(f), MapPort(f, r)) == r
  {
    if r.AgentPort? { InverseAt(n, m, f, r.id); }
    hide Isomorphism;
  }

  lemma InverseWire(n: Net, m: Net, f: Mapping, q: PortRef)
    requires Isomorphism(n, m, f) && m.IsPort(q) && n.WellFormed()
    ensures n.Target(MapPort(Inverted(f), q)) == MapPort(Inverted(f), m.Target(q))
  {
    hide Isomorphism, Inverted;
    var x := Transport.ImageOnto(n, m, f, q.id);
    InverseAt(n, m, f, x);
    var p := AgentPort(x, q.port);
    Transport.PortImage(n, m, f, p);
    InversePort(n, m, f, p);
    InversePort(n, m, f, n.Target(p));
  }

  lemma NormalImage(n: Net, m: Net)
    requires Isomorphic(n, m) && n.WellFormed() && R.IsNormalForm(n)
    ensures R.IsNormalForm(m)
  {
    var f :| Isomorphism(n, m, f);
    hide Isomorphic, Isomorphism;
    forall x, y ensures !Faces(m, x, y) {
      if Faces(m, x, y) { FacesBack(n, m, f, x, y); }
    }
  }

  lemma FacesBack(n: Net, m: Net, f: Mapping, x: AgentId, y: AgentId)
    requires Isomorphism(n, m, f) && n.WellFormed() && Faces(m, x, y)
    ensures !R.IsNormalForm(n)
  {
    hide Isomorphism;
    var u := Transport.ImageOnto(n, m, f, x);
    var v := Transport.ImageOnto(n, m, f, y);
    Transport.PortImage(n, m, f, AgentPort(u, 0));
    Transport.PortImage(n, m, f, AgentPort(v, 0));
    Transport.PortBack(n, m, f, n.Target(AgentPort(u, 0)), AgentPort(v, 0));
    assert Faces(n, u, v);
  }

  // ------------------------------------------------------ moves and runs of isomorphic nets

  /** A move of one net has a counterpart in the other. */
  lemma MoveImage(n: Net, m: Net, s: Move) returns (t: Move)
    requires Clear(n) && Clear(m) && Isomorphic(n, m) && Enabled(n, s)
    ensures Enabled(m, t) && Isomorphic(Take(n, s), Take(m, t))
  {
    hide Clear, Isomorphic, Isomorphism, Take, AllClean, Sound, AllocOk, Reduced, Clean;
    ClearNow(n);
    ClearNow(m);
    var f := SomeIsomorphism(n, m);
    Transport.PairImage(n, m, f, s.a, s.b);
    t := Move(f[s.a], f[s.b], m.redexes);
    var F := ClearMove(n, s);
    var G := ClearMove(m, t);
    Transport.StepTransported(Transport.Steps(n, m, f, s.a, s.b, F, Take(n, s), G, Take(m, t)));
  }

  lemma SomeIsomorphism(n: Net, m: Net) returns (f: Mapping)
    requires Isomorphic(n, m)
    ensures Isomorphism(n, m, f)
  {
    f :| Isomorphism(n, m, f);
  }

  lemma {:induction false} RunImage(n: Net, m: Net, run: seq<Move>) returns (run': seq<Move>)
    requires Clear(n) && Clear(m) && Isomorphic(n, m) && Legal(n, run)
    ensures Legal(m, run') && |run'| == |run| && Isomorphic(After(n, run), After(m, run'))
    decreases |run|
  {
    hide Clear, Isomorphic, Take, Enabled;
    if run == [] {
      run' := [];
    } else {
      var t := MoveImage(n, m, run[0]);
      var F := ClearMove(n, run[0]);
      var G := ClearMove(m, t);
      var rest := RunImage(Take(n, run[0]), Take(m, t), run[1..]);
      Prefixed(m, t, rest);
      run' := [t] + rest;
    }
  }

  lemma {:induction false} ClearRun(n: Net, run: seq<Move>)
    requires Clear(n) && Legal(n, run)
    ensures Clear(After(n, run))
    decreases |run|
  {
    hide Clear, Take, Enabled;
    if run != [] {
      var F := ClearMove(n, run[0]);
      ClearRun(Take(n, run[0]), run[1..]);
    }
  }

  // ------------------------------------------------------------------- two different moves

  /** Two active pairs are the same, up to the order of the agents, or have no agent in common. */
  lemma SameOrApart(n: Net, a: AgentId, b: AgentId, c: AgentId, d: AgentId)
    requires Pair(n, a, b) && Pair(n, c, d)
    ensures (a == c && b == d) || (a == d && b == c) || Confluence.TwoPairs(n, a, b, c, d)
  {}

  /** The same pair in the other order. */
  lemma SwappedStep(n: Net, a: AgentId, b: AgentId, F: seq<AgentId>, m: Net)
    requires Pair(n, a, b) && Pair(n, b, a) && Reduced(n, a, b, F, m)
    ensures Reduced(n, b, a, F, m)
  {
    assert n.agents[a] == n.agents[b] && F == [];
    forall r ensures Follow(n, b, a, [], r) == Follow(n, a, b, [], r) { SwappedFollow(n, a, b, r); }
    hide Follow;
  }

  lemma SwappedFollow(n: Net, a: AgentId, b: AgentId, r: PortRef)
    requires Pair(n, a, b) && Pair(n, b, a)
    ensures Follow(n, b, a, [], r) == Follow(n, a, b, [], r)
  {}

  /** Reducing the same pair gives the same net. */
  lemma SameMove(n: Net, s: Move, t: Move)
    requires Clear(n) && Enabled(n, s) && Enabled(n, t)
    requires (s.a == t.a && s.b == t.b) || (s.a == t.b && s.b == t.a)
    ensures Isomorphic(Take(n, s), Take(n, t))
  {
    hide Clear, Isomorphic, Take, Sound, AllocOk, AllClean, Reduced, Clean;
    ClearNow(n);
    var F := ClearMove(n, s);
    var G := ClearMove(n, t);
    if s.a != t.a { SwappedStep(n, s.a, s.b, F, Take(n, s)); }
    Transport.SameStep(n, t.a, t.b, F, Take(n, s), G, Take(n, t));
  }

  /** The run of two moves as one of the strong confluence theorem. */
  lemma TwoMoves(n: Net, s: Move, t: Move, t': Move) returns (Q: Confluence.Run)
    requires Clear(n) && Enabled(n, s) && Confluence.TwoPairs(n, s.a, s.b, t.a, t.b)
    requires t' == t.(queue := Take(n, s).redexes)
    ensures Enabled(Take(n, s), t') && Confluence.Valid(Q)
    ensures Q.n == n && Q.a == s.a && Q.b == s.b && Q.c == t.a && Q.d == t.b && Q.m == Take(Take(n, s), t')
  {
    hide Clear, Take, Sound, AllocOk, AllClean, Reduced, Clean;
    ClearNow(n);
    var F := ClearMove(n, s);
    var mid := Take(n, s);
    Confluence.PairSurvives(n, s.a, s.b, t.a, t.b, F, mid);
    var G := ClearMove(mid, t');
    Q := Confluence.Run(n, s.a, s.b, t.a, t.b, F, mid, G, Take(mid, t'));
  }

  /** Two moves of different pairs that close no loop on each other can be completed to
      isomorphic nets. */
  lemma Commutes(n: Net, s: Move, t: Move) returns (s': Move, t': Move)
    requires Clear(n) && Enabled(n, s) && Enabled(n, t) && Confluence.TwoPairs(n, s.a, s.b, t.a, t.b)
    requires !Confluence.LoopClosed(n, s.a, s.b, t.a, t.b)
    ensures Enabled(Take(n, s), t') && Enabled(Take(n, t), s')
    ensures Isomorphic(Take(Take(n, s), t'), Take(Take(n, t), s'))
  {
    hide Clear, Take, Confluence.Valid, Isomorphic, Confluence.LoopClosed;
    t', s' := t.(queue := Take(n, s).redexes), s.(queue := Take(n, t).redexes);
    var Q := TwoMoves(n, s, t, t');
    var P := TwoMoves(n, t, s, s');
    Confluence.StrongConfluence(Q, P);
  }

  lemma NormalStops(n: Net, s: Move)
    requires R.IsNormalForm(n)
    ensures !Enabled(n, s)
  {
    if Enabled(n, s) { assert Faces(n, s.a, s.b); }
  }

  lemma SoundTransitive(n: Net, m: Net, k: Net)
    requires Sound(n) && Isomorphic(n, m) && Isomorphic(m, k)
    ensures Isomorphic(n, k)
  {
    Transitive(n, m, k);
  }

  lemma NormalToo(n: Net, m: Net)
    requires Sound(n) && Isomorphic(n, m) && R.IsNormalForm(n)
    ensures R.IsNormalForm(m)
  {
    NormalImage(n, m);
  }

  lemma {:induction false} LegalTail(n: Net, run: seq<Move>, rest: seq<Move>)
    requires Legal(n, run) && Legal(n, run + rest)
    ensures Legal(After(n, run), rest) && After(n, run + rest) == After(After(n, run), rest)
    decreases |run|
  {
    hide Take, Enabled;
    if run == [] {
      assert run + rest == rest;
    } else {
      assert (run + rest)[1..] == run[1..] + rest;
      LegalTail(Take(n, run[0]), run[1..], rest);
    }
  }

  // ---------------------------------------------------------------- the reduction loop

  /** A step of the loop is a move. */
  lemma AdvanceMoves(n: Net) returns (s: Move)
    requires Good(n) && Clear(n) && R.Advance(n).1.Reduced?
    ensures Enabled(n, s) && R.Advance(n).0 == Take(n, s) && Good(Take(n, s)) && Clear(Take(n, s))
  {
    hide Good, Clear, Apply, R.Advance, Clean, Reduced;
    R.AdvanceGood(n);
    var m := R.Advance(n).0;
    var (a, b) := R.NextPair(n).value;
    var queue :| m == Apply(n.(redexes := queue), a, b);
    s := Move(a, b, queue);
    var F := ClearMove(n, s);
  }

  ghost predicate SameButQueue(n: Net, m: Net) {
    m == n.(redexes := m.redexes)
  }

  /** What the loop does is a run, and it stops before its budget only at a normal form. */
  lemma {:induction false} LoopRuns(n: Net, stats: R.Stats, budget: nat) returns (run: seq<Move>)
    requires Good(n) && Clear(n) && stats.total <= budget
    ensures var (m, st) := R.AdvanceN(n, stats, budget);
      && Legal(n, run) && st.total == stats.total + |run| <= budget && SameButQueue(After(n, run), m)
      && (st.total < budget ==> R.IsNormalForm(After(n, run)))
    decreases budget - stats.total
  {
    hide Good, Clear, Apply, Take, R.Advance, R.IsNormalForm, R.OneStep;
    run := [];
    if stats.total < budget {
      R.AdvanceGood(n);
      if R.Advance(n).1.Reduced? {
        var s := AdvanceMoves(n);
        var rest := LoopRuns(Take(n, s), stats.Count(R.Advance(n).1.rule), budget);
        Prefixed(n, s, rest);
        run := [s] + rest;
      }
    }
  }

  lemma SameAgents(n: Net, m: Net, k: Net, f: Mapping)
    requires AgentBijection(n, m, f) && k.agents == m.agents
    ensures AgentBijection(n, k, f)
  {}

  lemma QueueIrrelevant(n: Net, m: Net, k: Net)
    requires SameButQueue(m, k) && Isomorphic(n, m)
    ensures Isomorphic(n, k)
  {
    hide AgentBijection, MapPort;
    var f := SomeIsomorphism(n, m);
    assert forall p :: m.Target(p) == k.Target(p);
    SameAgents(n, m, k, f);
    Transport.MakeIsomorphic(n, k, f);
  }

  lemma {:induction false} Appended(n: Net, run: seq<Move>, rest: seq<Move>)
    requires Legal(n, run) && Legal(After(n, run), rest)
    ensures Legal(n, run + rest) && After(n, run + rest) == After(After(n, run), rest)
    decreases |run|
  {
    hide Take, Enabled;
    if run == [] {
      assert run + rest == rest;
    } else {
      assert (run + rest)[1..] == run[1..] + rest;
      Appended(Take(n, run[0]), run[1..], rest);
    }
  }
}
