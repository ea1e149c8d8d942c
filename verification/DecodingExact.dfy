/** How the decoders relate to the numerals the encoder writes. */
module DecodingExact {
  import opened Nets
  import opened Building
  import opened Church
  import opened ChurchTerms
  import opened Readback
  import opened Decoding
  import opened Arithmetic
  import Lambda

  // ------------------------------------------------------------------- round trip

  function Apps(b: AgentId, k: nat): (s: seq<AgentId>)
    ensures |s| == k
  {
    seq(k, i requires 0 <= i => AppId(b, i))
  }

  /** Decoding an encoded number gives it back. */
  lemma RoundTrip(k: nat)
    ensures DecodesTo(NumeralNet(k), k)
  {
    hide Encode, Ready;
    var n, ids := NumeralNet(k), Apps(0, k);
    EmptyGrows();
    NumeralLambdas(k);
    FirstNumeral(k);
    var start := n.Target(P(1, 2));
    forall i | 0 <= i < k ensures Reached(n, start, ids[..i]) == P(ids[i], 1) && ids[i] != 1 && Has(n, ids[i], Con) {
      SymbolOf(EMPTY, k, AppId(0, i));
      if i > 0 {
        assert ids[..i][|ids[..i]| - 1] == AppId(0, i - 1);
        NumeralStep(k, i - 1);
      }
    }
    if k > 0 { NumeralStep(k, k - 1); }
    assert DecodesAs(n, k, 0, 1, ids);
  }

  /** The two lambdas of an encoded numeral and where their variables lead. */
  lemma NumeralLambdas(k: nat)
    ensures var n := NumeralNet(k);
      && Lambdas(n, 0, 1) && n.Target(P(0, 1)) != DISCONNECTED && n.Target(P(1, 1)) != DISCONNECTED
      && n.Target(P(1, 2)) == if k == 0 then P(1, 1) else P(AppId(0, 0), 1)
  {
    hide Encode;
    EmptyGrows();
    SymbolOf(EMPTY, k, 0);
    SymbolOf(EMPTY, k, 1);
    EncodeTarget(EMPTY, k, P(0, 1));
    EncodeTarget(EMPTY, k, P(0, 2));
    EncodeTarget(EMPTY, k, P(1, 1));
    EncodeTarget(EMPTY, k, P(1, 2));
  }

  lemma NumeralStep(k: nat, i: nat)
    requires i < k
    ensures NumeralNet(k).Target(P(AppId(0, i), 2)) == if i == k - 1 then P(1, 1) else P(AppId(0, i + 1), 1)
  {
    hide Encode;
    EmptyGrows();
    EncodeTarget(EMPTY, k, P(AppId(0, i), 2));
  }

  // ------------------------------------------------------ what is and is not checked

  /** `q` leads, through copies, to the variable of the outer lambda. */
  ghost predicate IsFunction(n: Net, f: AgentId, x: AgentId, q: PortRef) {
    exists t :: Reads(n, {f, x}, q, t) && TermOf(t, [x, f]) == Lambda.V(1)
  }

  ghost predicate AllFunctions(n: Net, f: AgentId, x: AgentId, ids: seq<AgentId>) {
    forall i :: 0 <= i < |ids| ==> IsFunction(n, f, x, n.Target(P(ids[i], 0)))
  }

  /** A chain of applications between the two lambdas, from `start` to `end`. */
  ghost predicate Spine(n: Net, f: AgentId, x: AgentId, start: PortRef, ids: seq<AgentId>, end: PortRef) {
    && Has(n, f, Con) && Has(n, x, Con) && n.Target(P(f, 2)) == P(x, 0)
    && Chain(n, x, start, ids) && Reached(n, start, ids) == end && end != P(x, 0)
  }

  /** The outer lambda is not one of the applications of the chain. */
  lemma NotOuter(n: Net, f: AgentId, x: AgentId, start: PortRef, ids: seq<AgentId>, end: PortRef, i: nat)
    requires Spine(n, f, x, start, ids, end) && i < |ids|
    ensures ids[i] != f && ids[i] != x && Has(n, ids[i], Con)
  {
    ChainAt(n, x, start, ids, i);
    if i + 1 < |ids| {
      ChainAt(n, x, start, ids, i + 1);
      assert ids[..i + 1][|ids[..i + 1]| - 1] == ids[i];
    }
  }

  /** The port the chain is at after its first i applications. */
  lemma ChainPort(n: Net, f: AgentId, x: AgentId, start: PortRef, ids: seq<AgentId>, end: PortRef, i: nat)
    requires Spine(n, f, x, start, ids, end) && i <= |ids|
    ensures Reached(n, start, ids[..i]) == if i == |ids| then end else P(ids[i], 1)
    ensures i < |ids| ==> n.Target(P(ids[i], 2)) == Reached(n, start, ids[..i + 1])
  {
    if i == |ids| {
      assert ids[..i] == ids;
    } else {
      ChainAt(n, x, start, ids, i);
      assert ids[..i + 1][|ids[..i + 1]| - 1] == ids[i];
    }
  }

  lemma VarRead(n: Net, f: AgentId, x: AgentId)
    requires Has(n, x, Con)
    ensures Reads(n, {f, x}, P(x, 1), Var(x))
    ensures TermOf(Var(x), [x, f]) == Lambda.Iter(Lambda.V(1), 0, Lambda.V(0))
  {}

  lemma AppRead(n: Net, f: AgentId, x: AgentId, a: AgentId, g: Tree, rest: Tree, j: nat)
    requires Has(n, a, Con) && a != f && a != x && j > 0
    requires Reads(n, {f, x}, n.Target(P(a, 0)), g) && TermOf(g, [x, f]) == Lambda.V(1)
    requires Reads(n, {f, x}, n.Target(P(a, 2)), rest)
    requires TermOf(rest, [x, f]) == Lambda.Iter(Lambda.V(1), j - 1, Lambda.V(0))
    ensures Reads(n, {f, x}, P(a, 1), App(a, g, rest))
    ensures TermOf(App(a, g, rest), [x, f]) == Lambda.Iter(Lambda.V(1), j, Lambda.V(0))
  {}

  lemma LamRead(n: Net, scope: set<AgentId>, a: AgentId, t: Tree)
    requires Reads(n, scope, P(a, 0), t) && Has(n, a, Con)
    ensures t.Lam? && t.x == a && Reads(n, scope + {a}, n.Target(P(a, 2)), t.body)
  {}

  lemma {:induction false} ChainReads(n: Net, f: AgentId, x: AgentId, start: PortRef, ids: seq<AgentId>, i: nat) returns (t: Tree)
    requires Spine(n, f, x, start, ids, P(x, 1)) && AllFunctions(n, f, x, ids) && i <= |ids|
    ensures Reads(n, {f, x}, Reached(n, start, ids[..i]), t)
    ensures TermOf(t, [x, f]) == Lambda.Iter(Lambda.V(1), |ids| - i, Lambda.V(0))
    decreases |ids| - i
  {
    assert Has(n, x, Con);
    hide Spine, Reached, Reads, TermOf, Lambda.Iter;
    ChainPort(n, f, x, start, ids, P(x, 1), i);
    if i == |ids| {
      t := Var(x);
      VarRead(n, f, x);
    } else {
      var rest := ChainReads(n, f, x, start, ids, i + 1);
      assert IsFunction(n, f, x, n.Target(P(ids[i], 0)));
      var g :| Reads(n, {f, x}, n.Target(P(ids[i], 0)), g) && TermOf(g, [x, f]) == Lambda.V(1);
      NotOuter(n, f, x, start, ids, P(x, 1), i);
      t := App(ids[i], g, rest);
      AppRead(n, f, x, ids[i], g, rest, |ids| - i);
    }
  }

  /** If the chain reads as an iterate of the outer variable, it has that many applications,
      each of that variable. */
  lemma {:induction false} ReadsChain(n: Net, f: AgentId, x: AgentId, start: PortRef, ids: seq<AgentId>, i: nat, t: Tree, j: nat)
    requires Spine(n, f, x, start, ids, P(x, 1)) && i <= |ids|
    requires Reads(n, {f, x}, Reached(n, start, ids[..i]), t)
    requires TermOf(t, [x, f]) == Lambda.Iter(Lambda.V(1), j, Lambda.V(0))
    ensures i + j == |ids| && forall l :: i <= l < |ids| ==> IsFunction(n, f, x, n.Target(P(ids[l], 0)))
    decreases |ids| - i
  {
    ChainPort(n, f, x, start, ids, P(x, 1), i);
    if i < |ids| {
      NotOuter(n, f, x, start, ids, P(x, 1), i);
      assert t.App? && j > 0;
      ReadsChain(n, f, x, start, ids, i + 1, t.arg, j - 1);
    }
  }

  /** A chain that ends where nothing can be read reads as nothing. */
  lemma {:induction false} ReadsNothing(n: Net, f: AgentId, x: AgentId, start: PortRef, ids: seq<AgentId>, end: PortRef, i: nat, t: Tree)
    requires Spine(n, f, x, start, ids, end) && i <= |ids| && forall u :: !Reads(n, {f, x}, end, u)
    ensures !Reads(n, {f, x}, Reached(n, start, ids[..i]), t)
    decreases |ids| - i
  {
    ChainPort(n, f, x, start, ids, end, i);
    if i < |ids| {
      NotOuter(n, f, x, start, ids, end, i);
      if t.App? { ReadsNothing(n, f, x, start, ids, end, i + 1, t.arg); }
    }
  }

  /** The whole numeral reads as its body under two lambdas. */
  lemma Wrapped(n: Net, f: AgentId, x: AgentId, t: Tree, k: nat)
    requires Has(n, f, Con) && Has(n, x, Con) && n.Target(P(f, 2)) == P(x, 0) && Reads(n, {f, x}, n.Target(P(x, 2)), t)
    requires TermOf(t, [x, f]) == Lambda.Iter(Lambda.V(1), k, Lambda.V(0))
    ensures Denotes(n, P(f, 0), Lambda.Church(k))
  {
    assert {} + {f} == {f} && {f} + {x} == {f, x} && [x] + ([f] + []) == [x, f];
    var whole := Lam(f, Lam(x, t));
    assert Reads(n, {f}, P(x, 0), Lam(x, t));
    assert Reads(n, {}, P(f, 0), whole);
    assert TermOf(Lam(x, t), [f] + []) == Lambda.Church(k).body;
    assert TermOf(whole, []) == Lambda.Church(k);
  }

  lemma Unwrapped(n: Net, f: AgentId, x: AgentId, whole: Tree) returns (t: Tree)
    requires Has(n, f, Con) && Has(n, x, Con) && n.Target(P(f, 2)) == P(x, 0) && Reads(n, {}, P(f, 0), whole)
    ensures Reads(n, {f, x}, n.Target(P(x, 2)), t)
    ensures forall k: nat :: TermOf(whole, []) == Lambda.Church(k) ==>
      TermOf(t, [x, f]) == Lambda.Iter(Lambda.V(1), k, Lambda.V(0))
  {
    assert {} + {f} == {f} && {f} + {x} == {f, x} && [x] + ([f] + []) == [x, f];
    LamRead(n, {}, f, whole);
    LamRead(n, {} + {f}, x, whole.body);
    t := whole.body.body;
    forall k: nat | TermOf(whole, []) == Lambda.Church(k)
      ensures TermOf(t, [x, f]) == Lambda.Iter(Lambda.V(1), k, Lambda.V(0))
    {
      assert TermOf(whole.body, [f] + []) == Lambda.Church(k).body;
      assert TermOf(whole.body.body, [x] + ([f] + [])) == Lambda.Church(k).body.body;
    }
  }

  /** A net that decodes to `k` denotes the numeral `k` exactly when every application of
      its chain applies the variable of the outer lambda, which decode_nat does not check. */
  lemma DecodeExact(n: Net, k: nat, f: AgentId, x: AgentId, ids: seq<AgentId>)
    requires DecodesAs(n, k, f, x, ids)
    ensures Denotes(n, P(f, 0), Lambda.Church(k)) <==> AllFunctions(n, f, x, ids)
  {
    var start := n.Target(P(x, 2));
    assert Spine(n, f, x, start, ids, P(x, 1)) && ids[..0] == [];
    hide Reads, TermOf, Lambda.Church;
    if AllFunctions(n, f, x, ids) {
      var t := ChainReads(n, f, x, start, ids, 0);
      Wrapped(n, f, x, t, k);
    }
    if Denotes(n, P(f, 0), Lambda.Church(k)) {
      var whole :| Reads(n, {}, P(f, 0), whole) && TermOf(whole, []) == Lambda.Church(k);
      var t := Unwrapped(n, f, x, whole);
      ReadsChain(n, f, x, start, ids, 0, t, k);
    }
  }

  /** `\\f. \\x. y x` with a free `y`: two lambdas, one application of an interface wire. */
  const STRAY: Net :=
    Net(map[0 := Con, 1 := Con, 2 := Con, 3 := Era],
        map[AgentPort(0, 2) := AgentPort(1, 0), AgentPort(1, 0) := AgentPort(0, 2),
            AgentPort(0, 1) := AgentPort(3, 0), AgentPort(3, 0) := AgentPort(0, 1),
            AgentPort(1, 1) := AgentPort(2, 2), AgentPort(2, 2) := AgentPort(1, 1),
            AgentPort(1, 2) := AgentPort(2, 1), AgentPort(2, 1) := AgentPort(1, 2),
            AgentPort(2, 0) := FreePort(7)],
        4, 4, [], Some(AgentPort(0, 0)), [], true)

  /** decode_nat reads 1 from a well-formed net that is not the numeral 1. */
  lemma DecodesStray()
    ensures STRAY.WellFormed() && DecodesTo(STRAY, 1) && !Denotes(STRAY, P(0, 0), Lambda.Church(1))
  {
    StrayWellFormed();
    var n, ids: seq<AgentId> := STRAY, [2];
    assert Reached(n, n.Target(P(1, 2)), ids[..0]) == P(2, 1);
    assert DecodesAs(n, 1, 0, 1, ids);
    DecodeExact(n, 1, 0, 1, ids);
    assert n.Target(P(ids[0], 0)) == FreePort(7);
    assert !IsFunction(n, 0, 1, FreePort(7));
  }

  lemma StrayWellFormed()
    ensures STRAY.WellFormed()
  {
    var n := STRAY;
    forall p | n.IsPort(p) && n.Target(p).AgentPort? ensures n.IsPort(n.Target(p)) && n.Target(n.Target(p)) == p {
      assert p in n.ports;
    }
  }
}
