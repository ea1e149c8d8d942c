/** Strong confluence: two active pairs may be reduced in either order. */
module Confluence {
  import opened Nets
  import opened NetIsomorphism
  import opened Interaction
  import opened Backtracking

  /** Reduce the pair (a, b), creating `F`, then the pair (c, d), creating `G`. */
  datatype Run = Run(n: Net, a: AgentId, b: AgentId, c: AgentId, d: AgentId,
                     F: seq<AgentId>, mid: Net, G: seq<AgentId>, m: Net)

  ghost predicate TwoPairs(n: Net, a: AgentId, b: AgentId, c: AgentId, d: AgentId) {
    Pair(n, a, b) && Pair(n, c, d) && a != c && a != d && b != c && b != d
  }

  /** Both pairs are clean when they are reduced. */
  ghost predicate Valid(R: Run) {
    && Sound(R.n) && TwoPairs(R.n, R.a, R.b, R.c, R.d)
    && Clean(R.n, R.a, R.b) && Reduced(R.n, R.a, R.b, R.F, R.mid)
    && Pair(R.mid, R.c, R.d) && Clean(R.mid, R.c, R.d) && Reduced(R.mid, R.c, R.d, R.G, R.m)
  }

  /** The first step does not close a loop on the second pair, unless that pair
      annihilates. */
  ghost predicate Stable(R: Run) {
    R.c in R.n.agents && R.d in R.n.agents && !Anni(R.n, R.c, R.d) ==>
      (Loop(R.mid, R.c) <==> Loop(R.n, R.c)) && (Loop(R.mid, R.d) <==> Loop(R.n, R.d))
  }

  /** The other pair is still an active pair after a step. */
  lemma PairSurvives(n: Net, a: AgentId, b: AgentId, c: AgentId, d: AgentId, F: seq<AgentId>, mid: Net)
    requires Sound(n) && TwoPairs(n, a, b, c, d) && Reduced(n, a, b, F, mid)
    ensures Pair(mid, c, d)
  {
    assert n.IsPort(AgentPort(c, 0)) && n.IsPort(AgentPort(d, 0));
  }

  // ------------------------------------------------------------ paths through both pairs

  /** `r` is a port that a wire passes straight through. */
  ghost predicate Passes(n: Net, a: AgentId, b: AgentId, c: AgentId, d: AgentId, r: PortRef)
    requires TwoPairs(n, a, b, c, d)
  {
    (Aux(n, a, b, r) && Anni(n, a, b)) || (Aux(n, c, d, r) && Anni(n, c, d))
  }

  ghost function Hop(n: Net, a: AgentId, b: AgentId, c: AgentId, d: AgentId, r: PortRef): PortRef
    requires TwoPairs(n, a, b, c, d) && Passes(n, a, b, c, d, r)
  {
    n.Target(if Aux(n, a, b, r) then Across(n, a, b, r) else Across(n, c, d, r))
  }

  /** The path from `r` is at `s` after `k` passages. */
  ghost predicate Reaches(n: Net, a: AgentId, b: AgentId, c: AgentId, d: AgentId, r: PortRef, k: nat, s: PortRef)
    requires TwoPairs(n, a, b, c, d)
    decreases k
  {
    if k == 0 then r == s
    else Passes(n, a, b, c, d, r) && Reaches(n, a, b, c, d, Hop(n, a, b, c, d, r), k - 1, s)
  }

  /** `s` is where the path from `r` ends. */
  ghost predicate EndsAt(n: Net, a: AgentId, b: AgentId, c: AgentId, d: AgentId, r: PortRef, s: PortRef)
    requires TwoPairs(n, a, b, c, d)
  {
    !Passes(n, a, b, c, d, s) && exists k :: Reaches(n, a, b, c, d, r, k, s)
  }

  lemma {:induction false} ReachesUnique(n: Net, a: AgentId, b: AgentId, c: AgentId, d: AgentId,
                                         r: PortRef, k: nat, s: PortRef, l: nat, t: PortRef)
    requires TwoPairs(n, a, b, c, d) && Reaches(n, a, b, c, d, r, k, s) && Reaches(n, a, b, c, d, r, l, t)
    requires !Passes(n, a, b, c, d, s) && !Passes(n, a, b, c, d, t)
    ensures s == t
    decreases k
  {
    if k > 0 && l > 0 { ReachesUnique(n, a, b, c, d, Hop(n, a, b, c, d, r), k - 1, s, l - 1, t); }
  }

  lemma {:induction false} ReachesThen(n: Net, a: AgentId, b: AgentId, c: AgentId, d: AgentId,
                                       r: PortRef, k: nat, s: PortRef, l: nat, t: PortRef)
    requires TwoPairs(n, a, b, c, d) && Reaches(n, a, b, c, d, r, k, s) && Reaches(n, a, b, c, d, s, l, t)
    ensures Reaches(n, a, b, c, d, r, k + l, t)
    decreases k
  {
    if k > 0 { ReachesThen(n, a, b, c, d, Hop(n, a, b, c, d, r), k - 1, s, l, t); }
  }

  lemma {:induction false} ReachesSwap(n: Net, a: AgentId, b: AgentId, c: AgentId, d: AgentId,
                                       r: PortRef, k: nat, s: PortRef)
    requires TwoPairs(n, a, b, c, d) && Reaches(n, a, b, c, d, r, k, s)
    ensures Reaches(n, c, d, a, b, r, k, s)
    decreases k
  {
    if k > 0 { ReachesSwap(n, a, b, c, d, Hop(n, a, b, c, d, r), k - 1, s); }
  }

  /** The end of the path is the same in either order. */
  lemma EndsUnique(n: Net, a: AgentId, b: AgentId, c: AgentId, d: AgentId, r: PortRef, s: PortRef, t: PortRef)
    requires TwoPairs(n, a, b, c, d) && EndsAt(n, a, b, c, d, r, s) && EndsAt(n, c, d, a, b, r, t)
    ensures s == t
  {
    var k :| Reaches(n, a, b, c, d, r, k, s);
    var l :| Reaches(n, c, d, a, b, r, l, t);
    ReachesSwap(n, c, d, a, b, r, l, t);
    ReachesUnique(n, a, b, c, d, r, k, s, l, t);
  }

  /** Following a wire through one pair is a stretch of the path. */
  lemma EndIsReached(n: Net, a: AgentId, b: AgentId, c: AgentId, d: AgentId, r: PortRef) returns (k: nat)
    requires Sound(n) && TwoPairs(n, a, b, c, d)
    ensures Reaches(n, a, b, c, d, r, k, End(n, a, b, r))
  {
    if Aux(n, a, b, r) && Anni(n, a, b) {
      var s := n.Target(Across(n, a, b, r));
      assert Hop(n, a, b, c, d, r) == s;
      if Aux(n, a, b, s) {
        assert Hop(n, a, b, c, d, s) == End(n, a, b, r);
        assert Reaches(n, a, b, c, d, s, 1, End(n, a, b, r)) by {
          assert Reaches(n, a, b, c, d, End(n, a, b, r), 0, End(n, a, b, r));
        }
        k := 2;
      } else {
        assert Reaches(n, a, b, c, d, s, 0, s);
        k := 1;
      }
    } else {
      k := 0;
    }
  }

  // ------------------------------------------------- a run resolves every wire to its path

  /** The end `s` of a path, named in the final net. */
  ghost function Name(n: Net, a: AgentId, b: AgentId, c: AgentId, d: AgentId,
                      F: seq<AgentId>, G: seq<AgentId>, s: PortRef): PortRef
    requires TwoPairs(n, a, b, c, d)
  {
    if Aux(n, a, b, s) then Place(n, a, b, F, s) else Place(n, c, d, G, s)
  }

  /** The first step leaves the shape of the second pair alone. */
  lemma SameShape(R: Run)
    requires Valid(R)
    ensures Anni(R.mid, R.c, R.d) == Anni(R.n, R.c, R.d)
    ensures forall u :: Aux(R.mid, R.c, R.d, u) == Aux(R.n, R.c, R.d, u)
    ensures forall u :: Aux(R.n, R.c, R.d, u) ==> Across(R.mid, R.c, R.d, u) == Across(R.n, R.c, R.d, u)
    ensures Stable(R) ==> Born(R.mid, R.c, R.d) == Born(R.n, R.c, R.d)
    ensures Stable(R) && !Anni(R.n, R.c, R.d) ==>
      forall u :: Aux(R.n, R.c, R.d, u) ==> Heir(R.mid, R.c, R.d, u) == Heir(R.n, R.c, R.d, u)
  {}

  ghost predicate First(R: Run) {
    && Sound(R.n) && TwoPairs(R.n, R.a, R.b, R.c, R.d)
    && Clean(R.n, R.a, R.b) && Reduced(R.n, R.a, R.b, R.F, R.mid)
  }

  /** Passing through the second pair after the first step: in the original net
      this is one passage and then a stretch through the first pair. */
  lemma HopAfter(R: Run, u: PortRef) returns (s: PortRef, k: nat)
    requires First(R) && Aux(R.n, R.c, R.d, u) && Anni(R.n, R.c, R.d)
    ensures R.mid.Target(Across(R.n, R.c, R.d, u)) == Place(R.n, R.a, R.b, R.F, s)
    ensures Reaches(R.n, R.a, R.b, R.c, R.d, u, k, s)
    ensures !(Aux(R.n, R.a, R.b, s) && Anni(R.n, R.a, R.b))
  {
    var v := Across(R.n, R.c, R.d, u);
    assert R.n.IsPort(v) && Survives(R.n, R.a, R.b, v.id);
    s := End(R.n, R.a, R.b, R.n.Target(v));
    if Anni(R.n, R.a, R.b) { EndLeaves(R.n, R.a, R.b, v); }
    hide Reduced, Clean, Place, Sound, End;
    var l := EndIsReached(R.n, R.a, R.b, R.c, R.d, R.n.Target(v));
    assert Hop(R.n, R.a, R.b, R.c, R.d, u) == R.n.Target(v);
    k := l + 1;
  }

  /** A named end of the first pair is not a port of the second one. */
  lemma PlacedApart(R: Run, s: PortRef)
    requires First(R) && Aux(R.n, R.c, R.d, Place(R.n, R.a, R.b, R.F, s))
    ensures Place(R.n, R.a, R.b, R.F, s) == s && !Aux(R.n, R.a, R.b, s)
  {}

  /** Passing through the second pair in the middle net, and leaving it. */
  lemma MidEnd(R: Run, q: PortRef)
    requires Valid(R) && Anni(R.n, R.c, R.d) && Aux(R.n, R.c, R.d, R.mid.Target(q))
    requires R.mid.IsPort(q) && Survives(R.mid, R.c, R.d, q.id)
    ensures var t := R.mid.Target(Across(R.n, R.c, R.d, R.mid.Target(q)));
            && End(R.mid, R.c, R.d, R.mid.Target(q))
               == (if Aux(R.n, R.c, R.d, t) then R.mid.Target(Across(R.n, R.c, R.d, t)) else t)
            && !Aux(R.n, R.c, R.d, End(R.mid, R.c, R.d, R.mid.Target(q)))
  {
    SameShape(R);
    ReducedSound(R.n, R.a, R.b, R.F, R.mid);
    EndLeaves(R.mid, R.c, R.d, q);
  }

  lemma ResolveThrough(R: Run, r: PortRef, q: PortRef) returns (s: PortRef)
    requires Valid(R) && First(R) && Anni(R.n, R.c, R.d) && Aux(R.n, R.c, R.d, R.mid.Target(q))
    requires R.mid.IsPort(q) && R.mid.Target(q) == Place(R.n, R.a, R.b, R.F, End(R.n, R.a, R.b, r))
    requires Survives(R.mid, R.c, R.d, q.id)
    ensures EndsAt(R.n, R.a, R.b, R.c, R.d, r, s)
    ensures End(R.mid, R.c, R.d, R.mid.Target(q)) == Place(R.n, R.a, R.b, R.F, s)
    ensures !Aux(R.n, R.c, R.d, Place(R.n, R.a, R.b, R.F, s))
  {
    hide Valid, First, Reduced, Clean, Sound, Stable, Born, Place, End, Aux, Anni, Across, Passes, Hop, Reaches, Survives;
    MidEnd(R, q);
    var k1 := FirstStretch(R, r);
    var s1 := End(R.n, R.a, R.b, r);
    PlacedApart(R, s1);
    var s2, k2 := HopAfter(R, s1);
    ReachesThen(R.n, R.a, R.b, R.c, R.d, r, k1, s1, k2, s2);
    if Aux(R.n, R.c, R.d, Place(R.n, R.a, R.b, R.F, s2)) {
      PlacedApart(R, s2);
      var s3, k3 := HopAfter(R, s2);
      ReachesThen(R.n, R.a, R.b, R.c, R.d, r, k1 + k2, s2, k3, s3);
      s := s3;
      NotPassing(R, s);
    } else {
      s := s2;
      NotPassing(R, s);
    }
  }

  lemma FirstStretch(R: Run, r: PortRef) returns (k: nat)
    requires First(R)
    ensures TwoPairs(R.n, R.a, R.b, R.c, R.d)
    ensures Reaches(R.n, R.a, R.b, R.c, R.d, r, k, End(R.n, R.a, R.b, r))
  {
    k := EndIsReached(R.n, R.a, R.b, R.c, R.d, r);
  }

  lemma NotPassing(R: Run, s: PortRef)
    requires First(R) && !(Aux(R.n, R.a, R.b, s) && Anni(R.n, R.a, R.b))
    requires !Aux(R.n, R.c, R.d, Place(R.n, R.a, R.b, R.F, s))
    ensures !Passes(R.n, R.a, R.b, R.c, R.d, s)
  {}

  /** The wire that arrives at `r` ends, after both steps, at the end of its path. */
  lemma Resolve(R: Run, r: PortRef, q: PortRef) returns (s: PortRef)
    requires Valid(R) && Stable(R)
    requires R.mid.IsPort(q) && R.mid.Target(q) == Follow(R.n, R.a, R.b, R.F, r)
    requires Survives(R.mid, R.c, R.d, q.id) || !Anni(R.n, R.c, R.d)
    requires !(Aux(R.n, R.a, R.b, End(R.n, R.a, R.b, r)) && Anni(R.n, R.a, R.b))
    ensures EndsAt(R.n, R.a, R.b, R.c, R.d, r, s)
    ensures Follow(R.mid, R.c, R.d, R.G, R.mid.Target(q)) == Name(R.n, R.a, R.b, R.c, R.d, R.F, R.G, s)
  {
    SameShape(R);
    var s1 := End(R.n, R.a, R.b, r);
    assert R.mid.Target(q) == Place(R.n, R.a, R.b, R.F, s1);
    assert First(R);
    hide Valid, First, Reduced, Clean, Stable, Born, Net.WellFormed;
    if Aux(R.n, R.c, R.d, R.mid.Target(q)) && Anni(R.n, R.c, R.d) {
      s := ResolveThrough(R, r, q);
    } else {
      s := s1;
      var k1 := EndIsReached(R.n, R.a, R.b, R.c, R.d, r);
      if Aux(R.n, R.c, R.d, R.mid.Target(q)) { PlacedApart(R, s1); }
    }
  }

  // --------------------------------------------------------------- the ports that are kept

  predicate SurvivesBoth(n: Net, a: AgentId, b: AgentId, c: AgentId, d: AgentId, x: AgentId) {
    Survives(n, a, b, x) && Survives(n, c, d, x)
  }

  /** A port of the original net that lives on, possibly under the name of an heir. */
  ghost predicate Kept(n: Net, a: AgentId, b: AgentId, c: AgentId, d: AgentId, q: PortRef)
    requires TwoPairs(n, a, b, c, d)
  {
    && n.IsPort(q)
    && (|| SurvivesBoth(n, a, b, c, d, q.id)
        || (exists k :: 0 <= k < |Born(n, a, b)| && q == Source(n, a, b, k))
        || (exists k :: 0 <= k < |Born(n, c, d)| && q == Source(n, c, d, k)))
  }

  /** The wire of a kept port, after both steps, leads to the end of its path. */
  lemma KeptWire(R: Run, q: PortRef) returns (s: PortRef)
    requires Valid(R) && Stable(R) && Kept(R.n, R.a, R.b, R.c, R.d, q)
    ensures EndsAt(R.n, R.a, R.b, R.c, R.d, R.n.Target(q), s)
    ensures R.m.Target(Name(R.n, R.a, R.b, R.c, R.d, R.F, R.G, q)) == Name(R.n, R.a, R.b, R.c, R.d, R.F, R.G, s)
  {
    if SurvivesBoth(R.n, R.a, R.b, R.c, R.d, q.id) {
      s := SurvivorKept(R, q);
    } else if k :| 0 <= k < |Born(R.n, R.a, R.b)| && q == Source(R.n, R.a, R.b, k) {
      s := FirstHeirKept(R, k);
    } else {
      var k :| 0 <= k < |Born(R.n, R.c, R.d)| && q == Source(R.n, R.c, R.d, k);
      s := SecondHeirKept(R, k);
    }
  }

  lemma SurvivorKept(R: Run, q: PortRef) returns (s: PortRef)
    requires Valid(R) && Stable(R) && R.n.IsPort(q) && SurvivesBoth(R.n, R.a, R.b, R.c, R.d, q.id)
    ensures EndsAt(R.n, R.a, R.b, R.c, R.d, R.n.Target(q), s)
    ensures R.m.Target(Name(R.n, R.a, R.b, R.c, R.d, R.F, R.G, q)) == Name(R.n, R.a, R.b, R.c, R.d, R.F, R.G, s)
  {
    if Anni(R.n, R.a, R.b) { EndLeaves(R.n, R.a, R.b, q); }
    assert R.mid.IsPort(q) && Survives(R.mid, R.c, R.d, q.id);
    assert R.m.Target(q) == Follow(R.mid, R.c, R.d, R.G, R.mid.Target(q));
    assert Name(R.n, R.a, R.b, R.c, R.d, R.F, R.G, q) == q;
    hide Clean, Sound, Follow, Place, Born;
    s := Resolve(R, R.n.Target(q), q);
  }

  lemma FirstHeirKept(R: Run, k: nat) returns (s: PortRef)
    requires Valid(R) && Stable(R) && k < |Born(R.n, R.a, R.b)|
    ensures var q := Source(R.n, R.a, R.b, k);
      && EndsAt(R.n, R.a, R.b, R.c, R.d, R.n.Target(q), s)
      && R.m.Target(Name(R.n, R.a, R.b, R.c, R.d, R.F, R.G, q)) == Name(R.n, R.a, R.b, R.c, R.d, R.F, R.G, s)
  {
    SourceOutside(R.n, R.a, R.b, k);
    var q, q1 := Source(R.n, R.a, R.b, k), AgentPort(R.F[k], 0);
    assert Name(R.n, R.a, R.b, R.c, R.d, R.F, R.G, q) == q1;
    assert R.mid.IsPort(q1) && Survives(R.mid, R.c, R.d, q1.id);
    assert R.m.Target(q1) == Follow(R.mid, R.c, R.d, R.G, R.mid.Target(q1));
    assert !Anni(R.n, R.a, R.b);
    hide Clean, Sound, Follow, Place, Born;
    s := Resolve(R, R.n.Target(q), q1);
  }

  lemma SameSources(R: Run)
    requires Valid(R) && Stable(R)
    ensures |Born(R.mid, R.c, R.d)| == |Born(R.n, R.c, R.d)|
    ensures forall k :: 0 <= k < |Born(R.n, R.c, R.d)| ==> Source(R.mid, R.c, R.d, k) == Source(R.n, R.c, R.d, k)
    ensures forall k, j :: 0 <= k < |Born(R.n, R.c, R.d)| && 1 <= j <= 2 ==>
              Inner(R.mid, R.c, R.d, k, j) == Inner(R.n, R.c, R.d, k, j)
  {}

  lemma SecondHeirKept(R: Run, k: nat) returns (s: PortRef)
    requires Valid(R) && Stable(R) && k < |Born(R.n, R.c, R.d)|
    ensures var q := Source(R.n, R.c, R.d, k);
      && EndsAt(R.n, R.a, R.b, R.c, R.d, R.n.Target(q), s)
      && R.m.Target(Name(R.n, R.a, R.b, R.c, R.d, R.F, R.G, q)) == Name(R.n, R.a, R.b, R.c, R.d, R.F, R.G, s)
  {
    SameSources(R);
    SameShape(R);
    ReducedSound(R.n, R.a, R.b, R.F, R.mid);
    SourceOutside(R.mid, R.c, R.d, k);
    var q := Source(R.n, R.c, R.d, k);
    assert Heir(R.n, R.c, R.d, q) == k;
    assert Name(R.n, R.a, R.b, R.c, R.d, R.F, R.G, q) == AgentPort(R.G[k], 0);
    assert R.m.Target(AgentPort(R.G[k], 0)) == Follow(R.mid, R.c, R.d, R.G, R.mid.Target(q));
    assert R.n.IsPort(q) && Survives(R.n, R.a, R.b, q.id);
    if Anni(R.n, R.a, R.b) { EndLeaves(R.n, R.a, R.b, q); }
    assert !Anni(R.n, R.c, R.d);
    hide Clean, Sound, Follow, Place, Born;
    s := Resolve(R, R.n.Target(q), q);
  }

  /** The last wire of a path comes from its start or from an annihilating port. */
  lemma {:induction false} LastWire(n: Net, a: AgentId, b: AgentId, c: AgentId, d: AgentId, q: PortRef, k: nat, s: PortRef)
    returns (y: PortRef)
    requires Sound(n) && TwoPairs(n, a, b, c, d) && n.IsPort(q) && Reaches(n, a, b, c, d, n.Target(q), k, s)
    ensures n.IsPort(y) && n.Target(y) == s && (y == q || Passes(n, a, b, c, d, y))
    decreases k
  {
    if k == 0 {
      y := q;
    } else {
      var r := n.Target(q);
      var v := if Aux(n, a, b, r) then Across(n, a, b, r) else Across(n, c, d, r);
      assert n.IsPort(v) && Passes(n, a, b, c, d, v);
      y := LastWire(n, a, b, c, d, v, k - 1, s);
    }
  }

  /** The path of a kept port ends at a kept port or at the interface. */
  lemma EndKept(n: Net, a: AgentId, b: AgentId, c: AgentId, d: AgentId, q: PortRef, s: PortRef)
    requires Sound(n) && TwoPairs(n, a, b, c, d) && Clean(n, a, b) && Clean(n, c, d)
    requires Kept(n, a, b, c, d, q) && EndsAt(n, a, b, c, d, n.Target(q), s) && s.AgentPort?
    ensures Kept(n, a, b, c, d, s)
  {
    var k :| Reaches(n, a, b, c, d, n.Target(q), k, s);
    var y := LastWire(n, a, b, c, d, q, k, s);
    assert n.Target(s) == y;
    if Aux(n, a, b, s) {
      KeptWireOutside(n, a, b, c, d, q, y);
      HeirOfSource(n, a, b, s);
    } else if Aux(n, c, d, s) {
      KeptWireOutside(n, a, b, c, d, q, y);
      HeirOfSource(n, c, d, s);
    } else {
      KeptNotPrincipal(n, a, b, c, d, q);
      assert y.port != 0 || SurvivesBoth(n, a, b, c, d, y.id);
    }
  }

  lemma KeptNotPrincipal(n: Net, a: AgentId, b: AgentId, c: AgentId, d: AgentId, q: PortRef)
    requires TwoPairs(n, a, b, c, d) && Kept(n, a, b, c, d, q)
    ensures SurvivesBoth(n, a, b, c, d, q.id) || q.port != 0
  {}

  lemma KeptWireOutside(n: Net, a: AgentId, b: AgentId, c: AgentId, d: AgentId, q: PortRef, y: PortRef)
    requires Sound(n) && TwoPairs(n, a, b, c, d) && Clean(n, a, b) && Clean(n, c, d)
    requires Kept(n, a, b, c, d, q) && n.IsPort(y) && (y == q || Passes(n, a, b, c, d, y))
    requires !Passes(n, a, b, c, d, n.Target(y))
    ensures Aux(n, a, b, n.Target(y)) ==> Outside(a, b, y)
    ensures Aux(n, c, d, n.Target(y)) ==> Outside(c, d, y)
  {
    if y == q && !SurvivesBoth(n, a, b, c, d, q.id) {
      if k :| 0 <= k < |Born(n, a, b)| && q == Source(n, a, b, k) {
        SourceOutside(n, a, b, k);
      } else {
        var k :| 0 <= k < |Born(n, c, d)| && q == Source(n, c, d, k);
        SourceOutside(n, c, d, k);
      }
    }
  }

  // -------------------------------------------------------------------- the isomorphism

  /** The same two pairs in the other order. */
  ghost predicate Opposite(R: Run, S: Run) {
    S.n == R.n && S.a == R.c && S.b == R.d && S.c == R.a && S.d == R.b
  }

  function Index(F: seq<AgentId>, x: AgentId): (i: nat)
    requires x in F
    ensures i < |F| && F[i] == x
  {
    if F[0] == x then 0 else 1 + Index(F[1..], x)
  }

  /** Rename the agents created in one order to those created in the other. */
  function Image(R: Run, S: Run, x: AgentId): AgentId {
    if x in R.F && Index(R.F, x) < |S.G| then S.G[Index(R.F, x)]
    else if x in R.G && Index(R.G, x) < |S.F| then S.F[Index(R.G, x)]
    else x
  }

  ghost function Renaming(R: Run, S: Run): Mapping {
    map x | x in R.m.agents :: Image(R, S, x)
  }

  /** The agents after both steps. */
  lemma RunAgents(R: Run)
    requires Valid(R) && Stable(R)
    ensures |R.F| == |Born(R.n, R.a, R.b)| && |R.G| == |Born(R.n, R.c, R.d)|
    ensures forall x :: x in R.m.agents <==> SurvivesBoth(R.n, R.a, R.b, R.c, R.d, x) || x in R.F || x in R.G
    ensures forall x :: x in R.F ==> x !in R.G && !SurvivesBoth(R.n, R.a, R.b, R.c, R.d, x)
    ensures forall x :: x in R.G ==> !SurvivesBoth(R.n, R.a, R.b, R.c, R.d, x)
    ensures forall k :: 0 <= k < |R.F| ==> R.m.agents[R.F[k]] == Born(R.n, R.a, R.b)[k]
    ensures forall k :: 0 <= k < |R.G| ==> R.m.agents[R.G[k]] == Born(R.n, R.c, R.d)[k]
    ensures forall x :: SurvivesBoth(R.n, R.a, R.b, R.c, R.d, x) ==> R.m.agents[x] == R.n.agents[x]
  {
    SameShape(R);
    assert forall x :: x in R.F ==> x in R.mid.agents && x != R.c && x != R.d;
    assert forall x :: x in R.G ==> x !in R.mid.agents || x == R.c || x == R.d;
  }

  lemma {:induction false} ImageOfNew(R: Run, S: Run, k: nat)
    requires Valid(R) && Stable(R) && Valid(S) && Stable(S) && Opposite(R, S)
    ensures k < |R.F| ==> k < |S.G| && Image(R, S, R.F[k]) == S.G[k]
    ensures k < |R.G| ==> k < |S.F| && Image(R, S, R.G[k]) == S.F[k]
  {
    RunAgents(R);
    RunAgents(S);
    if k < |R.F| {
      assert R.F[k] in R.F;
      assert Index(R.F, R.F[k]) == k;
    }
    if k < |R.G| {
      assert R.G[k] in R.G;
      assert Index(R.G, R.G[k]) == k;
    }
  }

  lemma ImageOfOld(R: Run, S: Run, x: AgentId)
    requires Valid(R) && Stable(R) && SurvivesBoth(R.n, R.a, R.b, R.c, R.d, x)
    ensures Image(R, S, x) == x && x in R.m.agents
  {
    RunAgents(R);
  }

  /** Every agent comes from one of the three families. */
  lemma ImageCases(R: Run, S: Run, x: AgentId)
    requires Valid(R) && Stable(R) && Valid(S) && Stable(S) && Opposite(R, S) && x in R.m.agents
    ensures var y := Image(R, S, x);
      && y in S.m.agents && S.m.agents[y] == R.m.agents[x]
      && Image(S, R, y) == x
  {
    RunAgents(R);
    RunAgents(S);
    if x in R.F {
      var k := Index(R.F, x);
      ImageOfNew(R, S, k);
      ImageOfNew(S, R, k);
      assert S.G[k] in S.G;
    } else if x in R.G {
      var k := Index(R.G, x);
      ImageOfNew(R, S, k);
      ImageOfNew(S, R, k);
      assert S.F[k] in S.F;
    } else {
      ImageOfOld(R, S, x);
      ImageOfOld(S, R, x);
    }
  }

  lemma RenamingBijection(R: Run, S: Run)
    requires Valid(R) && Stable(R) && Valid(S) && Stable(S) && Opposite(R, S)
    ensures AgentBijection(R.m, S.m, Renaming(R, S))
  {
    var f := Renaming(R, S);
    hide Valid, Stable, Image;
    forall x | x in f ensures f[x] in S.m.agents && S.m.agents[f[x]] == R.m.agents[x] && Image(S, R, f[x]) == x {
      ImageCases(R, S, x);
    }
    forall y | y in S.m.agents ensures y in f.Values {
      SwapOpposite(R, S);
      ImageCases(S, R, y);
      assert f[Image(S, R, y)] == y;
    }
  }

  lemma SwapOpposite(R: Run, S: Run)
    requires Opposite(R, S)
    ensures Opposite(S, R)
  {}

  /** The name of a port that is taken over is the principal port of its heir. */
  lemma NameOfSource(R: Run, k: nat)
    requires Valid(R) && Stable(R) && Clean(R.n, R.c, R.d)
    ensures |R.F| == |Born(R.n, R.a, R.b)| && |R.G| == |Born(R.n, R.c, R.d)|
    ensures k < |R.F| ==> Name(R.n, R.a, R.b, R.c, R.d, R.F, R.G, Source(R.n, R.a, R.b, k)) == AgentPort(R.F[k], 0)
    ensures k < |R.G| ==> Name(R.n, R.a, R.b, R.c, R.d, R.F, R.G, Source(R.n, R.c, R.d, k)) == AgentPort(R.G[k], 0)
  {
    RunAgents(R);
    if k < |Born(R.n, R.a, R.b)| { SourceOutside(R.n, R.a, R.b, k); }
    if k < |Born(R.n, R.c, R.d)| { SourceOutside(R.n, R.c, R.d, k); }
  }

  lemma NewLive(R: Run, k: nat)
    requires Valid(R) && Stable(R)
    ensures |R.F| == |Born(R.n, R.a, R.b)| && |R.G| == |Born(R.n, R.c, R.d)|
    ensures k < |R.F| ==> R.F[k] in R.m.agents
    ensures k < |R.G| ==> R.G[k] in R.m.agents
  {
    RunAgents(R);
    assert k < |R.F| ==> R.F[k] in R.F;
    assert k < |R.G| ==> R.G[k] in R.G;
  }

  lemma RenameNew(R: Run, S: Run, k: nat, j: nat)
    requires Valid(R) && Stable(R) && Valid(S) && Stable(S) && Opposite(R, S)
    ensures |R.F| == |S.G| && |R.G| == |S.F|
    ensures k < |R.F| ==> MapPort(Renaming(R, S), AgentPort(R.F[k], j)) == AgentPort(S.G[k], j)
    ensures k < |R.G| ==> MapPort(Renaming(R, S), AgentPort(R.G[k], j)) == AgentPort(S.F[k], j)
  {
    hide Valid, Stable, Image, Born, SurvivesBoth;
    NewLive(R, k);
    NewLive(S, k);
    ImageOfNew(R, S, k);
  }

  /** Renaming takes the name of a kept port in one order to its name in the other. */
  lemma RenameKept(R: Run, S: Run, q: PortRef)
    requires Valid(R) && Stable(R) && Valid(S) && Stable(S) && Opposite(R, S)
    requires Kept(R.n, R.a, R.b, R.c, R.d, q)
    ensures MapPort(Renaming(R, S), Name(R.n, R.a, R.b, R.c, R.d, R.F, R.G, q))
         == Name(S.n, S.a, S.b, S.c, S.d, S.F, S.G, q)
  {
    assert Clean(R.n, R.c, R.d) && Clean(S.n, S.c, S.d);
    if SurvivesBoth(R.n, R.a, R.b, R.c, R.d, q.id) {
      ImageOfOld(R, S, q.id);
    } else {
      hide Valid, Stable, Clean, Name, MapPort, Renaming;
      if k :| 0 <= k < |Born(R.n, R.a, R.b)| && q == Source(R.n, R.a, R.b, k) {
        NameOfSource(R, k);
        NameOfSource(S, k);
        RenameNew(R, S, k, 0);
      } else {
        var k :| 0 <= k < |Born(R.n, R.c, R.d)| && q == Source(R.n, R.c, R.d, k);
        NameOfSource(R, k);
        NameOfSource(S, k);
        RenameNew(R, S, k, 0);
      }
    }
  }

  lemma WireKept(R: Run, S: Run, q: PortRef)
    requires Valid(R) && Stable(R) && Valid(S) && Stable(S) && Opposite(R, S)
    requires Kept(R.n, R.a, R.b, R.c, R.d, q)
    ensures var p := Name(R.n, R.a, R.b, R.c, R.d, R.F, R.G, q);
            S.m.Target(MapPort(Renaming(R, S), p)) == MapPort(Renaming(R, S), R.m.Target(p))
  {
    var s := KeptWire(R, q);
    assert Kept(S.n, S.a, S.b, S.c, S.d, q);
    var t := KeptWire(S, q);
    EndsUnique(R.n, R.a, R.b, R.c, R.d, R.n.Target(q), s, t);
    RenameKept(R, S, q);
    if s.AgentPort? {
      EndKept(R.n, R.a, R.b, R.c, R.d, q, s);
      RenameKept(R, S, s);
    }
  }

  lemma InnerKept(R: Run, k: nat, j: nat)
    requires Valid(R) && Stable(R) && 1 <= j
    ensures k < |R.F| && j < TotalPorts(Born(R.n, R.a, R.b)[k]) ==>
      var i := Inner(R.n, R.a, R.b, k, j);
      i.0 < |R.F| && R.m.Target(AgentPort(R.F[k], j)) == AgentPort(R.F[i.0], i.1)
  {
    if k < |R.F| && j < TotalPorts(Born(R.n, R.a, R.b)[k]) {
      var i, p := Inner(R.n, R.a, R.b, k, j), AgentPort(R.F[k], j);
      InnerFirst(R, k, j);
      StaysPut(R, p);
    }
  }

  lemma InnerFirst(R: Run, k: nat, j: nat)
    requires First(R) && k < |R.F| == |Born(R.n, R.a, R.b)| && 1 <= j < TotalPorts(Born(R.n, R.a, R.b)[k])
    ensures var i, p := Inner(R.n, R.a, R.b, k, j), AgentPort(R.F[k], j);
      && i.0 < |R.F| && R.mid.IsPort(p) && R.mid.Target(p) == AgentPort(R.F[i.0], i.1)
      && Survives(R.mid, R.c, R.d, R.F[k]) && Survives(R.mid, R.c, R.d, R.F[i.0])
  {}

  /** The second step does not touch a wire between agents it keeps. */
  lemma StaysPut(R: Run, p: PortRef)
    requires Pair(R.mid, R.c, R.d) && Reduced(R.mid, R.c, R.d, R.G, R.m)
    requires R.mid.IsPort(p) && Survives(R.mid, R.c, R.d, p.id) && Outside(R.c, R.d, R.mid.Target(p))
    ensures R.m.Target(p) == R.mid.Target(p)
  {}

  lemma InnerSecond(R: Run, k: nat, j: nat)
    requires Valid(R) && Stable(R) && 1 <= j
    ensures |R.G| == |Born(R.n, R.c, R.d)|
    ensures k < |R.G| && j < TotalPorts(Born(R.n, R.c, R.d)[k]) ==>
      var i := Inner(R.n, R.c, R.d, k, j);
      i.0 < |R.G| && R.m.Target(AgentPort(R.G[k], j)) == AgentPort(R.G[i.0], i.1)
  {
    SameShape(R);
    SameSources(R);
    if k < |R.G| && j < TotalPorts(Born(R.n, R.c, R.d)[k]) {
      assert R.m.Target(AgentPort(R.G[k], j))
          == AgentPort(R.G[Inner(R.mid, R.c, R.d, k, j).0], Inner(R.mid, R.c, R.d, k, j).1);
    }
  }

  /** The wires among the agents that the first step of `R` creates. */
  lemma WireInnerFirst(R: Run, S: Run, k: nat, j: nat)
    requires Valid(R) && Stable(R) && Valid(S) && Stable(S) && Opposite(R, S)
    requires k < |R.F| == |Born(R.n, R.a, R.b)| && 1 <= j < TotalPorts(Born(R.n, R.a, R.b)[k])
    ensures var p := AgentPort(R.F[k], j);
            S.m.Target(MapPort(Renaming(R, S), p)) == MapPort(Renaming(R, S), R.m.Target(p))
  {
    var i := Inner(R.n, R.a, R.b, k, j);
    hide Valid, Stable, MapPort, Renaming, Inner, Born;
    InnerKept(R, k, j);
    InnerSecond(S, k, j);
    RenameNew(R, S, k, j);
    RenameNew(R, S, i.0, i.1);
  }

  lemma WireInnerSecond(R: Run, S: Run, k: nat, j: nat)
    requires Valid(R) && Stable(R) && Valid(S) && Stable(S) && Opposite(R, S)
    requires k < |R.G| == |Born(R.n, R.c, R.d)| && 1 <= j < TotalPorts(Born(R.n, R.c, R.d)[k])
    ensures var p := AgentPort(R.G[k], j);
            S.m.Target(MapPort(Renaming(R, S), p)) == MapPort(Renaming(R, S), R.m.Target(p))
  {
    var i := Inner(R.n, R.c, R.d, k, j);
    hide Valid, Stable, MapPort, Renaming, Inner, Born;
    InnerSecond(R, k, j);
    InnerKept(S, k, j);
    RenameNew(R, S, k, j);
    RenameNew(R, S, i.0, i.1);
  }

  lemma WireAny(R: Run, S: Run, p: PortRef)
    requires Valid(R) && Stable(R) && Valid(S) && Stable(S) && Opposite(R, S) && R.m.IsPort(p)
    ensures S.m.Target(MapPort(Renaming(R, S), p)) == MapPort(Renaming(R, S), R.m.Target(p))
  {
    assert TwoPairs(R.n, R.a, R.b, R.c, R.d) && Clean(R.n, R.c, R.d);
    hide Valid, Stable, Renaming, Clean, MapPort, Born, Source, Inner;
    PortCases(R, p);
    if p.id in R.F {
      var k := Index(R.F, p.id);
      if p.port == 0 {
        NameOfSource(R, k);
        KeptSource(R, k);
        WireKept(R, S, Source(R.n, R.a, R.b, k));
      } else {
        WireInnerFirst(R, S, k, p.port);
      }
    } else if p.id in R.G {
      var k := Index(R.G, p.id);
      if p.port == 0 {
        NameOfSource(R, k);
        KeptSource(R, k);
        WireKept(R, S, Source(R.n, R.c, R.d, k));
      } else {
        WireInnerSecond(R, S, k, p.port);
      }
    } else {
      WireKept(R, S, p);
    }
  }

  lemma PortCases(R: Run, p: PortRef)
    requires Valid(R) && Stable(R) && R.m.IsPort(p)
    ensures |R.F| == |Born(R.n, R.a, R.b)| && |R.G| == |Born(R.n, R.c, R.d)|
    ensures p.id in R.F ==> p.port < TotalPorts(Born(R.n, R.a, R.b)[Index(R.F, p.id)])
    ensures p.id in R.G ==> p.port < TotalPorts(Born(R.n, R.c, R.d)[Index(R.G, p.id)])
    ensures p.id !in R.F && p.id !in R.G ==>
      Kept(R.n, R.a, R.b, R.c, R.d, p) && Name(R.n, R.a, R.b, R.c, R.d, R.F, R.G, p) == p
  {
    RunAgents(R);
    hide Born, Source;
  }

  lemma KeptSource(R: Run, k: nat)
    requires Valid(R) && Clean(R.n, R.c, R.d)
    ensures k < |Born(R.n, R.a, R.b)| ==> Kept(R.n, R.a, R.b, R.c, R.d, Source(R.n, R.a, R.b, k))
    ensures k < |Born(R.n, R.c, R.d)| ==> Kept(R.n, R.a, R.b, R.c, R.d, Source(R.n, R.c, R.d, k))
  {
    if k < |Born(R.n, R.a, R.b)| { SourceOutside(R.n, R.a, R.b, k); }
    if k < |Born(R.n, R.c, R.d)| { SourceOutside(R.n, R.c, R.d, k); }
  }

  /** Strong confluence. In either order, with any choice of new ids, the two
      results are isomorphic. */
  lemma Diamond(R: Run, S: Run)
    requires Valid(R) && Valid(S) && Opposite(R, S) && Stable(R) && Stable(S)
    ensures Isomorphic(R.m, S.m)
  {
    RenamingBijection(R, S);
    hide Valid, Stable, Renaming, AgentBijection, MapPort;
    forall p | R.m.IsPort(p)
      ensures S.m.Target(MapPort(Renaming(R, S), p)) == MapPort(Renaming(R, S), R.m.Target(p))
    {
      WireAny(R, S, p);
    }
    assert Isomorphism(R.m, S.m, Renaming(R, S));
  }

  // ----------------------------------------------------------------- and only then

  /** Only an annihilation can close a loop on the other pair. */
  lemma StableUnlessAnni(R: Run)
    requires Valid(R) && !Anni(R.n, R.a, R.b)
    ensures Stable(R)
  {
    forall x | x == R.c || x == R.d ensures Loop(R.mid, x) <==> Loop(R.n, x) {
      if R.n.IsPort(AgentPort(x, 1)) {
        assert R.n.IsPort(AgentPort(x, 2));
        assert R.mid.Target(AgentPort(x, 1)) == Follow(R.n, R.a, R.b, R.F, R.n.Target(AgentPort(x, 1)));
        assert R.mid.Target(AgentPort(x, 2)) == Follow(R.n, R.a, R.b, R.F, R.n.Target(AgentPort(x, 2)));
      }
    }
  }

  /** A loop stays a loop, so the second step can only create fewer agents. */
  lemma LoopStays(R: Run, x: AgentId)
    requires Valid(R) && (x == R.c || x == R.d) && Loop(R.n, x)
    ensures Loop(R.mid, x)
  {
    assert R.n.IsPort(AgentPort(x, 1)) && R.n.IsPort(AgentPort(x, 2));
  }

  ghost function Elements(F: seq<AgentId>): set<AgentId> {
    set x | x in F
  }

  lemma {:induction false} ElementsSize(F: seq<AgentId>)
    requires forall i, j :: 0 <= i < j < |F| ==> F[i] != F[j]
    ensures |Elements(F)| == |F|
  {
    if F != [] {
      ElementsSize(F[1..]);
      assert Elements(F) == {F[0]} + Elements(F[1..]);
      assert F[0] !in Elements(F[1..]);
    }
  }

  ghost function Bystanders(R: Run): set<AgentId> {
    set x | x in R.n.agents && SurvivesBoth(R.n, R.a, R.b, R.c, R.d, x)
  }

  lemma RunKeys(R: Run)
    requires Valid(R)
    ensures R.m.agents.Keys == Bystanders(R) + Elements(R.F) + Elements(R.G)
    ensures Bystanders(R) !! Elements(R.F) && (Bystanders(R) + Elements(R.F)) !! Elements(R.G)
  {
    assert forall x :: x in R.F ==> x in R.mid.agents && x != R.c && x != R.d;
    assert forall x :: x in R.G ==> x !in R.mid.agents || x == R.c || x == R.d;
    assert forall x :: x in R.m.agents <==> (x in R.mid.agents && x != R.c && x != R.d) || x in R.G;
    assert forall x :: x in R.mid.agents <==> Survives(R.n, R.a, R.b, x) || x in R.F;
    hide Reduced, Clean, Sound, Pair;
  }

  /** How many agents there are after both steps. */
  lemma RunSize(R: Run)
    requires Valid(R)
    ensures |R.m.agents.Keys| == |Bystanders(R)| + |Born(R.n, R.a, R.b)| + |Born(R.mid, R.c, R.d)|
  {
    ElementsSize(R.F);
    ElementsSize(R.G);
    assert |R.F| == |Born(R.n, R.a, R.b)| && |R.G| == |Born(R.mid, R.c, R.d)|;
    hide Reduced, Clean, Sound, Pair, Elements, Bystanders, Born;
    RunKeys(R);
  }

  lemma SameBystanders(R: Run, S: Run)
    requires Opposite(R, S)
    ensures Bystanders(R) == Bystanders(S)
  {}

  lemma AnniCreatesNothing(n: Net, a: AgentId, b: AgentId)
    requires Pair(n, a, b) && Anni(n, a, b)
    ensures Born(n, a, b) == []
  {}

  lemma FewerBornIfLooped(R: Run)
    requires Valid(R) && !Anni(R.n, R.c, R.d) && |Born(R.mid, R.c, R.d)| == |Born(R.n, R.c, R.d)|
    ensures Stable(R)
  {
    SameShape(R);
    if Loop(R.n, R.c) { LoopStays(R, R.c); }
    if Loop(R.n, R.d) { LoopStays(R, R.d); }
    assert !Loop(R.n, R.d) || !R.n.agents[R.d].Era?;
  }

  /** If the results have equally many agents, no loop was closed on the way. */
  lemma SameSizeIsStable(R: Run, S: Run)
    requires Valid(R) && Valid(S) && Opposite(R, S) && |R.m.agents.Keys| == |S.m.agents.Keys|
    ensures Stable(R)
  {
    if Anni(R.n, R.a, R.b) && !Anni(R.n, R.c, R.d) {
      assert Anni(S.mid, S.c, S.d) by { SameShape(S); }
      AnniCreatesNothing(R.n, R.a, R.b);
      AnniCreatesNothing(S.mid, S.c, S.d);
      hide Valid, Stable, Born;
      RunSize(R);
      RunSize(S);
      SameBystanders(R, S);
      FewerBornIfLooped(R);
    } else if !Anni(R.n, R.a, R.b) {
      StableUnlessAnni(R);
    }
  }

  lemma SizesAgree(a: Net, b: Net)
    requires Isomorphic(a, b)
    ensures |a.agents.Keys| == |b.agents.Keys|
  {
    var f :| Isomorphism(a, b, f);
    InjectiveSize(f);
  }

  /** Annihilating (a, b) joins the two auxiliary ports of `x`. */
  ghost predicate Closes(n: Net, a: AgentId, b: AgentId, x: AgentId)
    requires Pair(n, a, b)
  {
    && n.IsPort(AgentPort(x, 1)) && Anni(n, a, b)
    && Aux(n, a, b, n.Target(AgentPort(x, 1))) && End(n, a, b, n.Target(AgentPort(x, 1))) == AgentPort(x, 2)
  }

  /** Reducing one pair closes a loop on a commuting or erased agent of the other. */
  ghost predicate LoopClosed(n: Net, a: AgentId, b: AgentId, c: AgentId, d: AgentId)
    requires TwoPairs(n, a, b, c, d)
  {
    || (!Anni(n, c, d) && (Closes(n, a, b, c) || Closes(n, a, b, d)))
    || (!Anni(n, a, b) && (Closes(n, c, d, a) || Closes(n, c, d, b)))
  }

  lemma LoopAfter(R: Run, x: AgentId)
    requires Valid(R) && (x == R.c || x == R.d)
    ensures Loop(R.mid, x) <==> Loop(R.n, x) || Closes(R.n, R.a, R.b, x)
    ensures !(Loop(R.n, x) && Closes(R.n, R.a, R.b, x))
  {
    var p, q := AgentPort(x, 1), AgentPort(x, 2);
    if R.n.IsPort(p) {
      assert R.n.IsPort(q);
      ReducedSound(R.n, R.a, R.b, R.F, R.mid);
      assert R.mid.IsPort(p) && R.mid.IsPort(q);
      assert R.mid.Target(p) == Follow(R.n, R.a, R.b, R.F, R.n.Target(p));
      assert R.mid.Target(p) == q ==> R.mid.Target(q) == p;
      assert R.n.Target(p) == q ==> R.n.Target(q) == p;
    }
  }

  lemma StableMeans(R: Run)
    requires Valid(R)
    ensures Stable(R) <==> Anni(R.n, R.c, R.d) || (!Closes(R.n, R.a, R.b, R.c) && !Closes(R.n, R.a, R.b, R.d))
  {
    LoopAfter(R, R.c);
    LoopAfter(R, R.d);
  }

  /** Strong confluence of the step, exactly: the two orders agree up to renaming
      if and only if neither step closes a loop on the other pair. */
  lemma StrongConfluence(R: Run, S: Run)
    requires Valid(R) && Valid(S) && Opposite(R, S)
    ensures Isomorphic(R.m, S.m) <==> !LoopClosed(R.n, R.a, R.b, R.c, R.d)
  {
    StableMeans(R);
    StableMeans(S);
    hide Valid, Stable, Isomorphic, Closes, Anni;
    if Stable(R) && Stable(S) { Diamond(R, S); }
    if Isomorphic(R.m, S.m) {
      SizesAgree(R.m, S.m);
      SameSizeIsStable(R, S);
      SwapOpposite(R, S);
      SameSizeIsStable(S, R);
    }
  }
}
