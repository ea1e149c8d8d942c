/** The normal form and the number of interactions do not depend on the order of reduction,
    where no loop is closed on the way. */
module Uniqueness {
  import opened Nets
  import opened NetOps
  import opened NetIsomorphism
  import opened Interaction
  import Confluence
  import opened Engine
  import R = Reducer
  import opened Runs

  /** Reducing one pair closes no loop on another. */
  ghost predicate Calm(n: Net) {
    forall a, b, c, d :: Confluence.TwoPairs(n, a, b, c, d) ==> !Confluence.LoopClosed(n, a, b, c, d)
  }

  /** Every net that can be reached is calm, and every pair that can be met is clean. */
  ghost predicate Tame(n: Net) {
    Clear(n) && forall run :: Legal(n, run) ==> Calm(After(n, run))
  }

  lemma TameMove(n: Net, s: Move)
    requires Tame(n) && Enabled(n, s)
    ensures Tame(Take(n, s))
  {
    var F := ClearMove(n, s);
    hide Take, Calm, Reduced, Enabled, Clear;
    forall run | Legal(Take(n, s), run) ensures Calm(After(Take(n, s), run)) { Prefixed(n, s, run); }
  }

  lemma TameClear(n: Net)
    requires Tame(n)
    ensures Clear(n)
  {}

  lemma NoLoop(n: Net, a: AgentId, b: AgentId, c: AgentId, d: AgentId)
    requires Tame(n) && Confluence.TwoPairs(n, a, b, c, d)
    ensures !Confluence.LoopClosed(n, a, b, c, d)
  {
    assert Legal(n, []) && After(n, []) == n;
    hide Clear;
  }

  /** Whatever move is made first, the rest of a run to normal form is one shorter. */
  lemma {:induction false} Project(n: Net, run: seq<Move>, s: Move) returns (rest: seq<Move>)
    requires Tame(n) && Legal(n, run) && R.IsNormalForm(After(n, run)) && Enabled(n, s)
    ensures Legal(Take(n, s), rest) && |rest| + 1 == |run| && Isomorphic(After(n, run), After(Take(n, s), rest))
    decreases |run|
  {
    hide Tame, Take, Isomorphic, R.IsNormalForm;
    if run == [] {
      NormalStops(n, s);
    } else {
      TameMove(n, run[0]);
      TameMove(n, s);
      SameOrApart(n, run[0].a, run[0].b, s.a, s.b);
      if Confluence.TwoPairs(n, run[0].a, run[0].b, s.a, s.b) {
        rest := ProjectApart(n, run, s);
      } else {
        TameClear(n);
        SameMove(n, run[0], s);
        TameClear(Take(n, run[0]));
        TameClear(Take(n, s));
        rest := RunImage(Take(n, run[0]), Take(n, s), run[1..]);
      }
    }
  }

  lemma {:induction false} ProjectApart(n: Net, run: seq<Move>, s: Move) returns (rest: seq<Move>)
    requires Tame(n) && Legal(n, run) && R.IsNormalForm(After(n, run)) && Enabled(n, s) && run != []
    requires Confluence.TwoPairs(n, run[0].a, run[0].b, s.a, s.b)
    ensures Legal(Take(n, s), rest) && |rest| + 1 == |run| && Isomorphic(After(n, run), After(Take(n, s), rest))
    decreases |run|, 0
  {
    hide Tame, Clear, Take, Isomorphic, R.IsNormalForm, Enabled, Confluence.TwoPairs, Confluence.LoopClosed;
    var n0, n1 := Take(n, run[0]), Take(n, s);
    TameMove(n, run[0]);
    TameMove(n, s);
    TameClear(n);
    NoLoop(n, run[0].a, run[0].b, s.a, s.b);
    var first, second := Commutes(n, run[0], s);
    var tail := Project(n0, run[1..], second);
    TameMove(n0, second);
    TameMove(n1, first);
    TameClear(n0);
    TameClear(Take(n0, second));
    TameClear(Take(n1, first));
    var tail' := RunImage(Take(n0, second), Take(n1, first), tail);
    Prefixed(n1, first, tail');
    rest := [first] + tail';
    ClearRun(n0, run[1..]);
    ClearNow(After(n0, run[1..]));
    SoundTransitive(After(n, run), After(Take(n0, second), tail), After(n1, rest));
  }

  /** In a tame net, if one run reaches a normal form then every run can be continued to one,
      with the same number of interactions in all and, up to renaming, the same net. */
  lemma {:induction false} Completes(n: Net, run: seq<Move>, other: seq<Move>) returns (rest: seq<Move>)
    requires Tame(n) && Legal(n, run) && R.IsNormalForm(After(n, run)) && Legal(n, other)
    ensures Legal(n, other + rest) && |other| + |rest| == |run|
    ensures Isomorphic(After(n, run), After(n, other + rest)) && R.IsNormalForm(After(n, other + rest))
    decreases |other|
  {
    hide Tame, Take, Isomorphic, R.IsNormalForm, Enabled;
    if other == [] {
      rest := run;
      Reflexive(After(n, run));
      assert other + rest == run;
    } else {
      var s := other[0];
      TameMove(n, s);
      var run' := Project(n, run, s);
      TameClear(n);
      ClearRun(n, run);
      ClearNow(After(n, run));
      NormalToo(After(n, run), After(Take(n, s), run'));
      rest := Completes(Take(n, s), run', other[1..]);
      Prefixed(n, s, other[1..] + rest);
      assert [s] + (other[1..] + rest) == other + rest;
      SoundTransitive(After(n, run), After(Take(n, s), run'), After(n, other + rest));
    }
  }

  /** The normal form of a tame net is unique up to renaming, and so is the number of
      interactions that reach it. */
  lemma UniqueNormalForm(n: Net, run: seq<Move>, other: seq<Move>)
    requires Tame(n) && Legal(n, run) && Legal(n, other)
    requires R.IsNormalForm(After(n, run)) && R.IsNormalForm(After(n, other))
    ensures |run| == |other| && Isomorphic(After(n, run), After(n, other))
  {
    hide Tame, Take, Isomorphic, R.IsNormalForm, Enabled;
    var rest := Completes(n, run, other);
    LegalTail(n, other, rest);
    if rest != [] { NormalStops(After(n, other), rest[0]); }
    assert other + [] == other;
  }

  /** If a tame net has a normal form at all, the loop reaches it: with any budget it makes
      as many interactions as every run to normal form has, or as many as the budget allows,
      and with a sufficient budget it ends, up to renaming, in the net those runs end in. */
  lemma LoopComputes(n: Net, run: seq<Move>, budget: nat)
    requires Good(n) && Tame(n) && Legal(n, run) && R.IsNormalForm(After(n, run))
    ensures var (m, st) := R.AdvanceN(n, R.Stats(0, 0, 0, 0, 0), budget);
      && st.total == (if |run| <= budget then |run| else budget)
      && (|run| <= budget ==> Isomorphic(After(n, run), m))
  {
    hide Good, Tame, Isomorphic, R.IsNormalForm, R.AdvanceN, Take, SameButQueue;
    TameClear(n);
    var done := LoopRuns(n, R.Stats(0, 0, 0, 0, 0), budget);
    var rest := Completes(n, run, done);
    if |done| < budget { UniqueNormalForm(n, run, done); }
    if |run| <= budget {
      assert done + rest == done by { assert rest == []; }
      QueueIrrelevant(After(n, run), After(n, done), R.AdvanceN(n, R.Stats(0, 0, 0, 0, 0), budget).0);
    }
  }
}
