/** What the number that decode_shared_chain returns says about the term the net denotes. */
module SharedExact {
  import opened Nets
  import opened Building
  import opened Readback
  import opened Decoding
  import opened SharedDecoding
  import opened DecodingExact
  import Lambda

  /** Passing through copies does not change what is read. */
  lemma {:induction false} FollowReads(n: Net, scope: set<AgentId>, p: PortRef, fuel: nat, q: PortRef, t: Tree) returns (u: Tree)
    requires Follow(n, p, fuel) == Some(q) && Reads(n, scope, q, t)
    ensures Reads(n, scope, p, u) && forall env :: TermOf(u, env) == TermOf(t, env)
    decreases fuel
  {
    if AtAux(p) && n.agents[p.id] == Dup {
      var v := FollowReads(n, scope, n.Target(P(p.id, 0)), fuel - 1, q, t);
      u := Copy(p.id, v);
    } else {
      u := t;
    }
  }

  lemma {:induction false} ReadsFollow(n: Net, scope: set<AgentId>, p: PortRef, fuel: nat, q: PortRef, t: Tree) returns (u: Tree)
    requires Follow(n, p, fuel) == Some(q) && Reads(n, scope, p, t)
    ensures Reads(n, scope, q, u) && forall env :: TermOf(u, env) == TermOf(t, env)
    decreases fuel
  {
    if AtAux(p) && n.agents[p.id] == Dup {
      assert t.Copy?;
      u := ReadsFollow(n, scope, n.Target(P(p.id, 0)), fuel - 1, q, t.of);
    } else {
      u := t;
    }
  }

  lemma WalkSpine(n: Net, f: AgentId, x: AgentId, start: PortRef, ids: seq<AgentId>)
    requires Walk(n, f, x, start, ids) && Outcome(n, x, Reached(n, start, ids), |ids|).Some?
    ensures Spine(n, f, x, start, ids, Reached(n, start, ids)) && Has(n, f, Con) && Has(n, x, Con)
    ensures n.Target(P(f, 2)) == P(x, 0) && Follow(n, n.Target(P(x, 2)), BOUND) == Some(start)
  {
    hide Chain, Follow, Multiplier;
  }

  /** At the principal port of a duplicator nothing can be read. */
  lemma BoundaryReadsNothing(n: Net, scope: set<AgentId>, e: PortRef, t: Tree)
    requires AtBoundary(n, e)
    ensures !Reads(n, scope, e, t)
  {}

  /** A walk that ends at the inner variable decodes the numeral exactly when every
      application applies the outer variable, and no other numeral can be meant. */
  lemma VariableExact(n: Net, f: AgentId, x: AgentId, start: PortRef, ids: seq<AgentId>)
    requires Walk(n, f, x, start, ids) && Reached(n, start, ids) == P(x, 1)
    ensures Denotes(n, P(f, 0), Lambda.Church(|ids|)) <==> AllFunctions(n, f, x, ids)
    ensures forall j: nat :: Denotes(n, P(f, 0), Lambda.Church(j)) ==> j == |ids|
  {
    WalkSpine(n, f, x, start, ids);
    assert ids[..0] == [];
    hide Walk, Spine, Reads, TermOf, Follow, Lambda.Church, AllFunctions;
    if AllFunctions(n, f, x, ids) {
      var t := ChainReads(n, f, x, start, ids, 0);
      var u := FollowReads(n, {f, x}, n.Target(P(x, 2)), BOUND, start, t);
      Wrapped(n, f, x, u, |ids|);
    }
    forall j: nat | Denotes(n, P(f, 0), Lambda.Church(j)) ensures j == |ids| && AllFunctions(n, f, x, ids) {
      var whole :| Reads(n, {}, P(f, 0), whole) && TermOf(whole, []) == Lambda.Church(j);
      var t := Unwrapped(n, f, x, whole);
      var u := ReadsFollow(n, {f, x}, n.Target(P(x, 2)), BOUND, start, t);
      ReadsChain(n, f, x, start, ids, 0, u, j);
      AllAreFunctions(n, f, x, ids);
    }
  }

  lemma AllAreFunctions(n: Net, f: AgentId, x: AgentId, ids: seq<AgentId>)
    requires forall l :: 0 <= l < |ids| ==> IsFunction(n, f, x, n.Target(P(ids[l], 0)))
    ensures AllFunctions(n, f, x, ids)
  {}

  /** A walk that ends at a duplicator's principal port decodes a number although the net
      denotes no term at all. */
  lemma BoundaryDenotesNothing(n: Net, f: AgentId, x: AgentId, start: PortRef, ids: seq<AgentId>, e: Lambda.Term)
    requires Walk(n, f, x, start, ids) && AtBoundary(n, Reached(n, start, ids))
    requires Outcome(n, x, Reached(n, start, ids), |ids|).Some?
    ensures !Denotes(n, P(f, 0), e)
  {
    WalkSpine(n, f, x, start, ids);
    assert ids[..0] == [];
    hide Walk, Spine, Reads, TermOf, Follow, Outcome, AtBoundary;
    if Denotes(n, P(f, 0), e) {
      var whole :| Reads(n, {}, P(f, 0), whole) && TermOf(whole, []) == e;
      var t := Unwrapped(n, f, x, whole);
      var u := ReadsFollow(n, {f, x}, n.Target(P(x, 2)), BOUND, start, t);
      forall v ensures !Reads(n, {f, x}, Reached(n, start, ids), v) {
        BoundaryReadsNothing(n, {f, x}, Reached(n, start, ids), v);
      }
      ReadsNothing(n, f, x, start, ids, Reached(n, start, ids), 0, u);
    }
  }

  /** The walk ends at the variable and applies the outer variable throughout. */
  ghost predicate ReadsNumeral(n: Net, f: AgentId, x: AgentId, start: PortRef, ids: seq<AgentId>) {
    Walk(n, f, x, start, ids) && Reached(n, start, ids) == P(x, 1) && AllFunctions(n, f, x, ids)
  }

  /** The number returned is the numeral the net denotes exactly when the walk ends at the
      inner variable, so that no multiplier was used, and applies the outer variable
      throughout; and whenever the net denotes a numeral, it is the number returned. */
  lemma SharedExact(n: Net, k: nat, f: AgentId, x: AgentId, start: PortRef, ids: seq<AgentId>)
    requires Walk(n, f, x, start, ids) && Outcome(n, x, Reached(n, start, ids), |ids|) == Some(k)
    ensures Denotes(n, P(f, 0), Lambda.Church(k)) <==> ReadsNumeral(n, f, x, start, ids)
    ensures forall j: nat :: Denotes(n, P(f, 0), Lambda.Church(j)) ==> j == k
  {
    hide Walk, Denotes, AllFunctions, Multiplier, Lambda.Church;
    if Reached(n, start, ids) == P(x, 1) {
      VariableExact(n, f, x, start, ids);
    } else {
      forall j: nat ensures !Denotes(n, P(f, 0), Lambda.Church(j)) {
        BoundaryDenotesNothing(n, f, x, start, ids, Lambda.Church(j));
      }
    }
  }

  /** `\\f. \\x. f ?`, the argument of `f` the principal port of a duplicator of `x`. */
  const DOUBLED: Net :=
    Net(map[0 := Con, 1 := Con, 2 := Con, 3 := Dup, 4 := Era],
        map[AgentPort(0, 2) := AgentPort(1, 0), AgentPort(1, 0) := AgentPort(0, 2),
            AgentPort(0, 1) := AgentPort(2, 0), AgentPort(2, 0) := AgentPort(0, 1),
            AgentPort(1, 2) := AgentPort(2, 1), AgentPort(2, 1) := AgentPort(1, 2),
            AgentPort(2, 2) := AgentPort(3, 0), AgentPort(3, 0) := AgentPort(2, 2),
            AgentPort(3, 1) := AgentPort(1, 1), AgentPort(1, 1) := AgentPort(3, 1),
            AgentPort(3, 2) := AgentPort(4, 0), AgentPort(4, 0) := AgentPort(3, 2)],
        5, 5, [], Some(AgentPort(0, 0)), [], true)

  lemma DoubledWalk()
    ensures Walk(DOUBLED, 0, 1, P(2, 1), [2]) && Reached(DOUBLED, P(2, 1), [2]) == P(3, 0)
    ensures AtBoundary(DOUBLED, P(3, 0)) && Outcome(DOUBLED, 1, P(3, 0), 1) == Some(2)
  {
    var n, ids: seq<AgentId> := DOUBLED, [2];
    assert Reached(n, P(2, 1), ids[..0]) == P(2, 1);
    assert Classify(n, P(1, 1), 1) == Some(XVariable) && Classify(n, P(4, 0), 1) == Some(Other);
    assert Multiplier(n, 3, 1, 2, BOUND) == Some(2);
  }

  lemma DoubledPorts(p: PortRef)
    ensures DOUBLED.IsPort(p) ==> p in DOUBLED.ports || p == P(0, 0)
    ensures p in DOUBLED.ports ==> DOUBLED.IsPort(p)
  {}

  lemma DoubledWires(p: PortRef)
    requires p in DOUBLED.ports || p == P(0, 0)
    ensures p != P(0, 0) ==> DOUBLED.Target(p) in DOUBLED.ports && DOUBLED.Target(DOUBLED.Target(p)) == p
    ensures p == P(0, 0) ==> DOUBLED.Target(p) == DISCONNECTED
  {}

  lemma DoubledWellFormed()
    ensures DOUBLED.WellFormed()
  {
    var n := DOUBLED;
    assert forall id :: id in n.agents ==> id < n.arena;
    hide Net.IsPort, Net.Target;
    forall p | n.IsPort(p) && n.Target(p).AgentPort? ensures n.IsPort(n.Target(p)) && n.Target(n.Target(p)) == p {
      DoubledPorts(p);
      DoubledWires(p);
      DoubledPorts(n.Target(p));
    }
  }

  /** decode_shared_chain reads 2 from a well-formed net that denotes no term. */
  lemma DecodesUndenoted(e: Lambda.Term)
    ensures DOUBLED.WellFormed() && SharesTo(DOUBLED, 2) && !Denotes(DOUBLED, P(0, 0), e)
  {
    DoubledWellFormed();
    DoubledWalk();
    hide Net.WellFormed, Walk, Outcome, Denotes, AtBoundary;
    BoundaryDenotesNothing(DOUBLED, 0, 1, P(2, 1), [2], e);
  }
}
