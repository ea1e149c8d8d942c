/** Uniqueness of the normal form where loops are closed on the way, and exactly when the
    number of interactions is unique as well. */
module NormalForms {
  import opened Nets
  import opened NetOps
  import opened NetIsomorphism
  import opened Interaction
  import opened Confluence
  import opened Engine
  import R = Reducer
  import opened Rejoining
  import opened Runs
  import opened Uniqueness

  /** Annihilating (a, b) closes a loop on the duplicator `d`, and none on the constructor `c`
      that it faces, which has none either. */
  ghost predicate Diverging(n: Net, a: AgentId, b: AgentId, c: AgentId, d: AgentId)
    requires TwoPairs(n, a, b, c, d)
  {
    Anni(n, a, b) && !Anni(n, c, d) && Closes(n, a, b, d) && !Closes(n, a, b, c) && !Loop(n, c)
  }

  ghost predicate Forgiving(n: Net) {
    forall a, b, c, d :: TwoPairs(n, a, b, c, d) ==> !Diverging(n, a, b, c, d)
  }

  /** Every pair that can be met is clean, and every loop that can be closed rejoins. */
  ghost predicate Orderly(n: Net) {
    Clear(n) && forall run :: Legal(n, run) ==> Forgiving(After(n, run))
  }

  /** No run is longer than `bound`. */
  ghost predicate Bounded(n: Net, bound: nat) {
    forall run :: Legal(n, run) ==> |run| <= bound
  }

  lemma OrderlyMove(n: Net, s: Move)
    requires Orderly(n) && Enabled(n, s)
    ensures Orderly(Take(n, s))
  {
    var F := ClearMove(n, s);
    hide Take, Forgiving, Reduced, Enabled, Clear;
    forall run | Legal(Take(n, s), run) ensures Forgiving(After(Take(n, s), run)) { Prefixed(n, s, run); }
  }

  lemma {:induction false} OrderlyRun(n: Net, run: seq<Move>)
    requires Orderly(n) && Legal(n, run)
    ensures Orderly(After(n, run))
    decreases |run|
  {
    hide Orderly, Take, Enabled;
    if run != [] {
      OrderlyMove(n, run[0]);
      OrderlyRun(Take(n, run[0]), run[1..]);
    }
  }

  lemma OrderlyNow(n: Net)
    requires Orderly(n)
    ensures Clear(n) && Forgiving(n)
  {
    assert Legal(n, []) && After(n, []) == n;
    hide Clear, Forgiving;
  }

  lemma BoundedMove(n: Net, s: Move, bound: nat)
    requires Bounded(n, bound) && Enabled(n, s)
    ensures bound > 0 && Bounded(Take(n, s), bound - 1)
  {
    hide Take, Enabled;
    Prefixed(n, s, []);
    assert |[s] + []| <= bound;
    forall run | Legal(Take(n, s), run) ensures |run| <= bound - 1 {
      Prefixed(n, s, run);
      assert |[s] + run| <= bound;
    }
  }

  lemma {:induction false} BoundedRun(n: Net, run: seq<Move>, bound: nat)
    requires Bounded(n, bound) && Legal(n, run)
    ensures |run| <= bound && Bounded(After(n, run), bound - |run|)
    decreases |run|
  {
    hide Bounded, Take, Enabled;
    if run != [] {
      BoundedMove(n, run[0], bound);
      BoundedRun(Take(n, run[0]), run[1..], bound - 1);
    }
  }

  /** Without a bound being exceeded, some run ends in a normal form. */
  lemma {:induction false} Normalises(n: Net, bound: nat) returns (run: seq<Move>)
    requires Clear(n) && Bounded(n, bound)
    ensures Legal(n, run) && R.IsNormalForm(After(n, run))
    decreases bound
  {
    hide Clear, Bounded, Take, R.IsNormalForm;
    if R.IsNormalForm(n) {
      run := [];
    } else {
      var s := SomeMove(n);
      var F := ClearMove(n, s);
      BoundedMove(n, s, bound);
      var rest := Normalises(Take(n, s), bound - 1);
      Prefixed(n, s, rest);
      run := [s] + rest;
    }
  }

  lemma SomeMove(n: Net) returns (s: Move)
    requires Clear(n) && !R.IsNormalForm(n)
    ensures Enabled(n, s)
  {
    ClearNow(n);
    var x, y :| Faces(n, x, y);
    R.FacesIsPair(n, x, y);
    var (a, b) := R.Normalized(n, x, y);
    s := Move(a, b, n.redexes);
  }

  // ---------------------------------------------------------------------- local confluence

  /** A pair that leaves nothing, as a move. */
  lemma Vanishing(n: Net, e: AgentId, f: AgentId) returns (s: Move)
    requires Clear(n) && FacingPair(n, e, f)
    ensures s.a == e && s.b == f && Enabled(n, s) && Reduced(n, e, f, [], Take(n, s)) && Clear(Take(n, s))
  {
    s := Move(e, f, n.redexes);
    hide Clear, Take, Clean;
    var F := ClearMove(n, s);
    assert F == [];
  }

  /** One loop closed: the other order needs one move more. */
  lemma OneJoins(Q: Run, P: Run, x: AgentId) returns (v: Move)
    requires Race(Q, P) && Clear(P.m) && Shut(Q, P, x) && !(Shut(Q, P, Q.c) && Shut(Q, P, Q.d))
    requires !(x == Q.d && !Loop(Q.n, Q.c))
    ensures Enabled(P.m, v) && Isomorphic(Q.m, Take(P.m, v))
  {
    hide Race, Clear, Shut, Loop, Isomorphic, Take, Twin, Reduced;
    TwinsFace(Q, P, x);
    v := Vanishing(P.m, P.F[Twin(Q, x)], P.F[Twin(Q, x) + 1]);
    OneLoop(Q, P, x, Take(P.m, v));
  }

  /** Two loops closed: it needs two more. */
  lemma BothJoin(Q: Run, P: Run) returns (v: Move, w: Move)
    requires Race(Q, P) && Clear(P.m) && Shut(Q, P, Q.c) && Shut(Q, P, Q.d)
    ensures Enabled(P.m, v) && Enabled(Take(P.m, v), w) && Isomorphic(Q.m, Take(Take(P.m, v), w))
  {
    hide Race, Clear, Shut, Isomorphic, Take, Twin, Reduced;
    TwinOfC(Q, P);
    SlowCount(Q, P, Q.c);
    TwinsFace(Q, P, Q.c);
    v := Vanishing(P.m, P.F[0], P.F[1]);
    FourthPair(Q, P, Take(P.m, v));
    w := Vanishing(Take(P.m, v), P.F[2], P.F[3]);
    TwoLoops(Q, P, Take(P.m, v), Take(Take(P.m, v), w));
  }

  /** Annihilating the pair of `s` closes a loop on the pair of `t`. */
  ghost predicate Shuts(n: Net, s: Move, t: Move) {
    && TwoPairs(n, s.a, s.b, t.a, t.b) && Anni(n, s.a, s.b) && !Anni(n, t.a, t.b)
    && (Closes(n, s.a, s.b, t.a) || Closes(n, s.a, s.b, t.b))
  }

  lemma LoopIsShut(n: Net, s: Move, t: Move)
    requires TwoPairs(n, s.a, s.b, t.a, t.b)
    ensures TwoPairs(n, t.a, t.b, s.a, s.b)
    ensures LoopClosed(n, s.a, s.b, t.a, t.b) <==> Shuts(n, s, t) || Shuts(n, t, s)
  {}

  /** The two orders as runs of the rejoining theorem. */
  lemma RaceOf(n: Net, s: Move, t: Move, s': Move, t': Move) returns (Q: Run, P: Run)
    requires Clear(n) && Enabled(n, s) && Enabled(n, t) && Shuts(n, s, t)
    requires t' == t.(queue := Take(n, s).redexes) && s' == s.(queue := Take(n, t).redexes)
    ensures Race(Q, P) && Q.n == n && Q.a == s.a && Q.b == s.b && Q.c == t.a && Q.d == t.b
    ensures Enabled(Take(n, s), t') && Q.m == Take(Take(n, s), t')
    ensures Enabled(Take(n, t), s') && P.m == Take(Take(n, t), s') && Clear(P.m)
  {
    hide Clear, Take, Valid, Closes, Reduced, Clean;
    Q := TwoMoves(n, s, t, t');
    P := TwoMoves(n, t, s, s');
    var F := ClearMove(n, t);
    var G := ClearMove(Take(n, t), s');
  }

  lemma ShutIsClosed(n: Net, s: Move, t: Move, Q: Run, P: Run)
    requires Race(Q, P) && Q.n == n && Q.a == s.a && Q.b == s.b && Q.c == t.a && Q.d == t.b
    ensures Pair(n, s.a, s.b) && (Shut(Q, P, t.a) <==> Closes(n, s.a, s.b, t.a)) && (Shut(Q, P, t.b) <==> Closes(n, s.a, s.b, t.b))
  {
    RacePairs(Q, P);
    hide Race, Closes;
  }

  /** A move that closes loops on another one: after both, the other order needs one or two
      moves more to get to the same net. */
  lemma LoopJoins(n: Net, s: Move, t: Move) returns (u: seq<Move>, v: seq<Move>)
    requires Clear(n) && Enabled(n, s) && Enabled(n, t) && Shuts(n, s, t) && !Diverging(n, s.a, s.b, t.a, t.b)
    ensures Legal(Take(n, s), u) && Legal(Take(n, t), v) && |u| < |v|
    ensures Isomorphic(After(Take(n, s), u), After(Take(n, t), v))
  {
    hide Clear, Take, Race, Enabled, Isomorphic, Shut, Closes, Loop, Anni, TwoPairs;
    var t', s' := t.(queue := Take(n, s).redexes), s.(queue := Take(n, t).redexes);
    var Q, P := RaceOf(n, s, t, s', t');
    ShutIsClosed(n, s, t, Q, P);
    u := [t'];
    OneMove(Take(n, s), t');
    if Closes(n, s.a, s.b, t.a) && Closes(n, s.a, s.b, t.b) {
      var y, z := BothJoin(Q, P);
      v := [s', y, z];
      ThreeMoves(Take(n, t), s', y, z);
    } else {
      var y := OneJoins(Q, P, if Closes(n, s.a, s.b, t.a) then t.a else t.b);
      v := [s', y];
      TwoInARow(Take(n, t), s', y);
    }
  }

  lemma OneMove(n: Net, s: Move)
    requires Enabled(n, s)
    ensures Legal(n, [s]) && After(n, [s]) == Take(n, s)
  {
    hide Enabled, Take;
    Prefixed(n, s, []);
    assert [s] + [] == [s];
  }

  lemma TwoInARow(n: Net, s: Move, t: Move)
    requires Enabled(n, s) && Enabled(Take(n, s), t)
    ensures Legal(n, [s, t]) && After(n, [s, t]) == Take(Take(n, s), t)
  {
    hide Enabled, Take;
    OneMove(Take(n, s), t);
    Prefixed(n, s, [t]);
    assert [s] + [t] == [s, t];
  }

  lemma ThreeMoves(n: Net, s: Move, t: Move, u: Move)
    requires Enabled(n, s) && Enabled(Take(n, s), t) && Enabled(Take(Take(n, s), t), u)
    ensures Legal(n, [s, t, u]) && After(n, [s, t, u]) == Take(Take(Take(n, s), t), u)
  {
    hide Enabled, Take;
    TwoInARow(Take(n, s), t, u);
    Prefixed(n, s, [t, u]);
    assert [s] + [t, u] == [s, t, u];
  }

  /** Any two moves can be completed to isomorphic nets. */
  lemma Local(n: Net, s: Move, t: Move) returns (u: seq<Move>, v: seq<Move>)
    requires Orderly(n) && Enabled(n, s) && Enabled(n, t)
    ensures Legal(Take(n, s), u) && Legal(Take(n, t), v) && Isomorphic(After(Take(n, s), u), After(Take(n, t), v))
  {
    hide Orderly, Clear, Take, Isomorphic, LoopClosed, Diverging, Shuts;
    OrderlyNow(n);
    SameOrApart(n, s.a, s.b, t.a, t.b);
    if !TwoPairs(n, s.a, s.b, t.a, t.b) {
      SameMove(n, s, t);
      u, v := [], [];
    } else {
      LoopIsShut(n, s, t);
      if Shuts(n, s, t) {
        u, v := LoopJoins(n, s, t);
      } else if Shuts(n, t, s) {
        v, u := LoopJoins(n, t, s);
        OrderlyMove(n, t);
        SymmetricAfter(Take(n, t), v, After(Take(n, s), u));
      } else {
        var s', t' := Commutes(n, s, t);
        u, v := [t'], [s'];
        OneMove(Take(n, s), t');
        OneMove(Take(n, t), s');
      }
    }
  }

  lemma SymmetricAfter(n: Net, run: seq<Move>, m: Net)
    requires Orderly(n) && Legal(n, run) && Isomorphic(After(n, run), m)
    ensures Isomorphic(m, After(n, run))
  {
    hide Orderly, Clear, Isomorphic, Legal, After;
    OrderlyRun(n, run);
    OrderlyNow(After(n, run));
    ClearNow(After(n, run));
    Symmetric(After(n, run), m);
  }

  // -------------------------------------------------------------------------- uniqueness

  /** From two nets that can be completed to isomorphic ones, completions to normal form. */
  lemma Complete(n: Net, u: seq<Move>, m: Net, v: seq<Move>, bound: nat) returns (u': seq<Move>, v': seq<Move>)
    requires Orderly(n) && Orderly(m) && Legal(n, u) && Legal(m, v) && Isomorphic(After(n, u), After(m, v)) && Bounded(n, bound)
    ensures Legal(n, u') && R.IsNormalForm(After(n, u')) && Legal(m, v') && R.IsNormalForm(After(m, v'))
    ensures Isomorphic(After(n, u'), After(m, v')) && |u'| - |u| == |v'| - |v|
  {
    hide Orderly, Clear, Isomorphic, Bounded, Legal, After, R.IsNormalForm;
    OrderlyRun(n, u);
    OrderlyRun(m, v);
    OrderlyNow(After(n, u));
    OrderlyNow(After(m, v));
    BoundedRun(n, u, bound);
    var w := Normalises(After(n, u), bound - |u|);
    var x := RunImage(After(n, u), After(m, v), w);
    OrderlyRun(After(n, u), w);
    OrderlyNow(After(After(n, u), w));
    ClearNow(After(After(n, u), w));
    NormalToo(After(After(n, u), w), After(After(m, v), x));
    Appended(n, u, w);
    Appended(m, v, x);
    u', v' := u + w, v + x;
  }

  /** If every pair that can be met is clean and every loop that can be closed rejoins, a
      terminating net has one normal form, up to renaming. */
  lemma {:induction false} OneNormalForm(n: Net, run: seq<Move>, other: seq<Move>, bound: nat)
    requires Orderly(n) && Bounded(n, bound) && Legal(n, run) && Legal(n, other)
    requires R.IsNormalForm(After(n, run)) && R.IsNormalForm(After(n, other))
    ensures Isomorphic(After(n, run), After(n, other))
    decreases bound
  {
    hide Orderly, Bounded, Take, Isomorphic, R.IsNormalForm, Enabled, Clear;
    if run == [] || other == [] {
      if run != [] { NormalStops(n, run[0]); }
      if other != [] { NormalStops(n, other[0]); }
      Reflexive(n);
    } else {
      var s, t := run[0], other[0];
      var n1, n2 := Take(n, s), Take(n, t);
      var u, v := Local(n, s, t);
      OrderlyMove(n, s);
      OrderlyMove(n, t);
      BoundedMove(n, s, bound);
      BoundedMove(n, t, bound);
      var u', v' := Complete(n1, u, n2, v, bound - 1);
      OneNormalForm(n1, run[1..], u', bound - 1);
      OneNormalForm(n2, v', other[1..], bound - 1);
      Chained(n1, run[1..], After(n1, u'), After(n2, v'));
      Chained(n1, run[1..], After(n2, v'), After(n2, other[1..]));
    }
  }

  lemma Chained(n: Net, run: seq<Move>, m: Net, k: Net)
    requires Orderly(n) && Legal(n, run) && Isomorphic(After(n, run), m) && Isomorphic(m, k)
    ensures Isomorphic(After(n, run), k)
  {
    hide Orderly, Clear, Isomorphic, Legal, After;
    OrderlyRun(n, run);
    OrderlyNow(After(n, run));
    ClearNow(After(n, run));
    SoundTransitive(After(n, run), m, k);
  }

  /** All runs to normal form have the same length. */
  ghost predicate SameLength(n: Net) {
    forall run, other ::
      Legal(n, run) && Legal(n, other) && R.IsNormalForm(After(n, run)) && R.IsNormalForm(After(n, other)) ==> |run| == |other|
  }

  /** One closed loop makes two runs to normal form of different lengths. */
  lemma LoopLengthens(n: Net, s: Move, t: Move, bound: nat) returns (run: seq<Move>, other: seq<Move>)
    requires Orderly(n) && Bounded(n, bound) && Enabled(n, s) && Enabled(n, t) && Shuts(n, s, t)
    ensures Legal(n, run) && R.IsNormalForm(After(n, run)) && Legal(n, other) && R.IsNormalForm(After(n, other))
    ensures |run| < |other|
  {
    hide Orderly, Bounded, Take, Isomorphic, R.IsNormalForm, Enabled, Clear, Diverging, Legal, After;
    OrderlyNow(n);
    assert !Diverging(n, s.a, s.b, t.a, t.b);
    var u, v := LoopJoins(n, s, t);
    OrderlyMove(n, s);
    OrderlyMove(n, t);
    BoundedMove(n, s, bound);
    var u', v' := Complete(Take(n, s), u, Take(n, t), v, bound - 1);
    Prefixed(n, s, u');
    Prefixed(n, t, v');
    run, other := [s] + u', [t] + v';
  }

  lemma LoopMoves(n: Net) returns (s: Move, t: Move)
    requires !Calm(n)
    ensures Enabled(n, s) && Enabled(n, t) && Shuts(n, s, t)
  {
    var a, b, c, d :| TwoPairs(n, a, b, c, d) && LoopClosed(n, a, b, c, d);
    hide LoopClosed, Shuts;
    s, t := Move(a, b, n.redexes), Move(c, d, n.redexes);
    LoopIsShut(n, s, t);
    if !Shuts(n, s, t) { s, t := t, s; }
  }

  lemma DifferentLengths(n: Net, run: seq<Move>, bound: nat)
    requires Orderly(n) && Bounded(n, bound) && Legal(n, run) && !Calm(After(n, run))
    ensures !SameLength(n)
  {
    hide Orderly, Bounded, Enabled, Calm, Legal, After, R.IsNormalForm, Shuts;
    var k := After(n, run);
    OrderlyRun(n, run);
    BoundedRun(n, run, bound);
    var s, t := LoopMoves(k);
    var x, y := LoopLengthens(k, s, t, bound - |run|);
    Appended(n, run, x);
    Appended(n, run, y);
    assert |run + x| != |run + y|;
  }

  /** In such a net all runs to normal form have the same length exactly when no loop can be
      closed at all. */
  lemma SameLengthExactly(n: Net, bound: nat)
    requires Orderly(n) && Bounded(n, bound)
    ensures SameLength(n) <==> Tame(n)
  {
    hide Orderly, Bounded, Calm, Legal, After, R.IsNormalForm, Clear, Forgiving;
    OrderlyNow(n);
    if Tame(n) {
      forall run, other | Legal(n, run) && Legal(n, other) && R.IsNormalForm(After(n, run)) && R.IsNormalForm(After(n, other))
        ensures |run| == |other|
      {
        UniqueNormalForm(n, run, other);
      }
    } else {
      var run :| Legal(n, run) && !Calm(After(n, run));
      DifferentLengths(n, run, bound);
    }
  }

  /** The reduction loop, with a budget above the bound, ends in that normal form. */
  lemma LoopFinds(n: Net, run: seq<Move>, bound: nat, budget: nat)
    requires Good(n) && Orderly(n) && Bounded(n, bound) && bound < budget
    requires Legal(n, run) && R.IsNormalForm(After(n, run))
    ensures var (m, st) := R.AdvanceN(n, R.Stats(0, 0, 0, 0, 0), budget);
      st.total <= bound && Isomorphic(After(n, run), m)
  {
    hide Good, Orderly, Clear, Isomorphic, R.IsNormalForm, R.AdvanceN, Legal, After, SameButQueue;
    OrderlyNow(n);
    var done := LoopRuns(n, R.Stats(0, 0, 0, 0, 0), budget);
    OneNormalForm(n, run, done, bound);
    QueueIrrelevant(After(n, run), After(n, done), R.AdvanceN(n, R.Stats(0, 0, 0, 0, 0), budget).0);
  }
}
