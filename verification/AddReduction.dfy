/** Reducing the addition net: six annihilations, in any order, and the result decodes to
    the sum. */
module AddReduction {
  import opened Nets
  import opened NetOps
  import opened Interaction
  import opened Engine
  import opened Runs
  import opened Contraction
  import opened Building
  import opened Church
  import C = ChurchTerms
  import G = Gadgets
  import opened Readback
  import A = Arithmetic
  import D = Decoding
  import E = DecodingExact
  import Root = RootDiscovery
  import Lambda
  import R = Reducer

  // ------------------------------------------------------------------------- the net

  /** The two numerals start at 0 and at `s`, the combinator at `t`; its agents are, in order,
      the lambdas m, n, f, x, the applications mf, nf, nfx, all, the duplicator of f and the
      two outer applications. */
  ghost predicate Fragment(o: Net, s: AgentId, t: AgentId) {
    Binders(o, t) && Applications(o, s, t) && o.Target(P(t + 10, 1)) == FreePort(0)
  }

  ghost predicate Binders(o: Net, t: AgentId) {
    && Linked(o, P(t, 2), P(t + 1, 0)) && Linked(o, P(t + 1, 2), P(t + 2, 0)) && Linked(o, P(t + 2, 2), P(t + 3, 0))
    && Linked(o, P(t, 1), P(t + 4, 0)) && Linked(o, P(t + 1, 1), P(t + 5, 0)) && Linked(o, P(t + 2, 1), P(t + 8, 0))
    && Linked(o, P(t + 3, 1), P(t + 6, 2)) && Linked(o, P(t + 8, 1), P(t + 4, 2)) && Linked(o, P(t + 8, 2), P(t + 5, 2))
  }

  ghost predicate Applications(o: Net, s: AgentId, t: AgentId) {
    && Linked(o, P(t + 5, 1), P(t + 6, 0)) && Linked(o, P(t + 6, 1), P(t + 7, 2)) && Linked(o, P(t + 4, 1), P(t + 7, 0))
    && Linked(o, P(t + 7, 1), P(t + 3, 2)) && Linked(o, P(t + 9, 0), P(t, 0)) && Linked(o, P(t + 9, 2), P(0, 0))
    && Linked(o, P(t + 9, 1), P(t + 10, 0)) && Linked(o, P(t + 10, 2), P(s, 0))
  }

  /** The numeral `k` with its first agent at `base`. */
  ghost predicate Numeral(o: Net, base: AgentId, k: nat) {
    && (forall q :: NewPort(base, k, q) && q != P(base, 0) ==> o.Target(q) == Wiring(base, k, q))
    && (forall x: AgentId :: base <= x < base + ChurchSize(k) ==> x in o.agents && o.agents[x] == KindOf(base, k, x))
  }

  function KindOf(base: AgentId, k: nat, x: AgentId): Symbol {
    if x < base + 2 then Con else if k == 0 then Era else if x < base + 2 + k then Con else Dup
  }

  ghost predicate AddNet(o: Net, a: nat, b: nat, s: AgentId, t: AgentId) {
    && s == ChurchSize(a) && t == s + ChurchSize(b)
    && Fragment(o, s, t) && Numeral(o, 0, a) && Numeral(o, s, b)
    && (forall x: AgentId :: x in o.agents <==> x < t + 11)
    && (forall x: AgentId :: t <= x < t + 11 ==> x in o.agents && o.agents[x] == if x == t + 8 then Dup else Con)
  }

  lemma JointFacts(n: Net, op: G.Op, m: PortRef, q: PortRef, r: Net, i: nat)
    requires G.Installed(n, op, m, q, r) && i < G.WireCount(op)
    ensures var w := G.JointAt(op, i, n.nextId, m, q); Linked(r, w.0, w.1)
  {
    hide G.JointAt, Linked, Added, Growing;
  }

  lemma FragmentInstalled(n: Net, s: AgentId, r: Net)
    requires G.Installed(n, G.Add, P(0, 0), P(s, 0), r)
    ensures Binders(r, n.nextId) && Applications(r, s, n.nextId)
  {
    hide G.Installed, Linked;
    var m, q := P(0, 0), P(s, 0);
    JointFacts(n, G.Add, m, q, r, 0); JointFacts(n, G.Add, m, q, r, 1); JointFacts(n, G.Add, m, q, r, 2);
    JointFacts(n, G.Add, m, q, r, 3); JointFacts(n, G.Add, m, q, r, 4); JointFacts(n, G.Add, m, q, r, 5);
    JointFacts(n, G.Add, m, q, r, 6); JointFacts(n, G.Add, m, q, r, 7); JointFacts(n, G.Add, m, q, r, 8);
    JointFacts(n, G.Add, m, q, r, 9); JointFacts(n, G.Add, m, q, r, 10); JointFacts(n, G.Add, m, q, r, 11);
    JointFacts(n, G.Add, m, q, r, 12); JointFacts(n, G.Add, m, q, r, 13); JointFacts(n, G.Add, m, q, r, 14);
    JointFacts(n, G.Add, m, q, r, 15); JointFacts(n, G.Add, m, q, r, 16);
  }

  lemma BindersStay(r: Net, o: Net, t: AgentId)
    requires Binders(r, t) && forall q: PortRef :: q.AgentPort? && q != P(t + 10, 1) ==> o.Target(q) == r.Target(q)
    ensures Binders(o, t)
  {}

  lemma ApplicationsStay(r: Net, o: Net, s: AgentId, t: AgentId)
    requires Applications(r, s, t) && s < t && forall q: PortRef :: q.AgentPort? && q != P(t + 10, 1) ==> o.Target(q) == r.Target(q)
    ensures Applications(o, s, t)
  {}

  /** A numeral keeps its wires while the net grows around it. */
  lemma NumeralBuilt(n: Net, k: nat, o: Net)
    requires Growing(n)
    requires forall x: AgentId :: n.nextId <= x < n.nextId + ChurchSize(k) ==> x in o.agents && x in Encode(n, k).agents && o.agents[x] == Encode(n, k).agents[x]
    requires forall q :: NewPort(n.nextId, k, q) && q != P(n.nextId, 0) ==> o.Target(q) == Encode(n, k).Target(q)
    ensures Numeral(o, n.nextId, k)
  {
    hide Encode, Growing, Wiring, NewPort;
    forall q | NewPort(n.nextId, k, q) && q != P(n.nextId, 0) ensures o.Target(q) == Wiring(n.nextId, k, q) {
      NewPortKind(n.nextId, k, q);
      EncodeTarget(n, k, q);
    }
    forall x: AgentId | n.nextId <= x < n.nextId + ChurchSize(k)
      ensures x in o.agents && o.agents[x] == KindOf(n.nextId, k, x)
    {
      C.SymbolOf(n, k, x);
    }
  }

  lemma NewPortKind(base: AgentId, k: nat, q: PortRef)
    requires NewPort(base, k, q)
    ensures q.AgentPort? && base <= q.id < base + ChurchSize(k)
  {}

  /** The built net has the wires above. */
  lemma BuiltIsAdd(a: nat, b: nat)
    ensures var s := ChurchSize(a); AddNet(A.BinaryNet(G.Add, a, b), a, b, s, s + ChurchSize(b))
  {
    hide Encode, G.Install, Growing, Net.WellFormed, Wiring, G.Installed, Fragment, Numeral, ChurchSyms, NewPort;
    var one := Encode(EMPTY, a);
    var both := Encode(one, b);
    A.EmptyGrows();
    EncodeFrame(EMPTY, a);
    EncodeFrame(one, b);
    A.OperandsReady(a, b);
    var s, t := one.nextId, both.nextId;
    var whole := G.Install(both, G.Add, P(0, 0), P(s, 0));
    G.InstallWires(both, G.Add, P(0, 0), P(s, 0));
    var o := A.BinaryNet(G.Add, a, b);
    assert o == Connect(whole, P(t + 10, 1), FreePort(0)).(root := None);
    ConnectedOnly(both, s, whole, o);
    assert forall x: AgentId :: x in both.agents <==> x < both.nextId by { BothAgents(a, b); }
    AddAgents(both, s, whole, o);
    AddNumerals(a, b, one, both, whole, o);
    AddFragment(both, s, whole, o);
  }

  /** Joining the result to the interface changes one port. */
  lemma ConnectedOnly(n: Net, s: AgentId, r: Net, o: Net)
    requires G.Installed(n, G.Add, P(0, 0), P(s, 0), r) && o == Connect(r, P(n.nextId + 10, 1), FreePort(0)).(root := None)
    ensures o.agents == r.agents && o.Target(P(n.nextId + 10, 1)) == FreePort(0)
    ensures forall q: PortRef :: q.AgentPort? && q != P(n.nextId + 10, 1) ==> o.Target(q) == r.Target(q)
  {
    InstalledAgents(n, s, r);
    hide G.Installed, Added;
  }

  lemma InstalledAgents(n: Net, s: AgentId, r: Net)
    requires G.Installed(n, G.Add, P(0, 0), P(s, 0), r)
    ensures forall x: AgentId :: x in r.agents <==> x in n.agents || n.nextId <= x < n.nextId + 11
    ensures forall x :: x in n.agents ==> x in r.agents && r.agents[x] == n.agents[x]
    ensures forall x: AgentId :: n.nextId <= x < n.nextId + 11 ==> x in r.agents && r.agents[x] == if x == n.nextId + 8 then Dup else Con
    ensures n.nextId + 10 < r.arena
  {
    hide G.JointAt, Linked;
    assert |G.Syms(G.Add)| == 11;
    forall x: AgentId | n.nextId <= x < n.nextId + 11
      ensures x in r.agents && r.agents[x] == if x == n.nextId + 8 then Dup else Con
    {
      var i := x - n.nextId;
      assert r.agents[n.nextId + i] == G.Syms(G.Add)[i];
    }
    assert n.nextId + 10 in r.agents;
    G.GrowingArena(r);
  }

  lemma AddAgents(n: Net, s: AgentId, r: Net, o: Net)
    requires G.Installed(n, G.Add, P(0, 0), P(s, 0), r) && o.agents == r.agents
    requires forall x: AgentId :: x in n.agents <==> x < n.nextId
    ensures var t := n.nextId;
      && (forall x: AgentId :: x in o.agents <==> x < t + 11)
      && (forall x: AgentId :: t <= x < t + 11 ==> x in o.agents && o.agents[x] == if x == t + 8 then Dup else Con)
  {
    hide G.Installed;
    InstalledAgents(n, s, r);
  }

  lemma BothAgents(a: nat, b: nat)
    ensures var both := Encode(Encode(EMPTY, a), b);
      && both.nextId == ChurchSize(a) + ChurchSize(b) && forall x: AgentId :: x in both.agents <==> x < both.nextId
  {
    hide Encode, Growing, ChurchSyms;
    A.EmptyGrows();
    EncodeFrame(EMPTY, a);
    EncodeFrame(Encode(EMPTY, a), b);
  }

  lemma InstalledOld(n: Net, s: AgentId, r: Net, q: PortRef)
    requires G.Installed(n, G.Add, P(0, 0), P(s, 0), r) && q.AgentPort? && q.id < n.nextId && q != P(0, 0) && q != P(s, 0)
    ensures r.Target(q) == n.Target(q)
  {
    hide G.JointAt, Linked, Added;
  }

  lemma AddNumerals(a: nat, b: nat, one: Net, both: Net, r: Net, o: Net)
    requires one == Encode(EMPTY, a) && both == Encode(one, b) && Growing(EMPTY) && Growing(one)
    requires G.Installed(both, G.Add, P(0, 0), P(one.nextId, 0), r) && o.agents == r.agents
    requires one.nextId == ChurchSize(a) && both.nextId == ChurchSize(a) + ChurchSize(b)
    requires forall q: PortRef :: q.AgentPort? && q != P(both.nextId + 10, 1) ==> o.Target(q) == r.Target(q)
    ensures Numeral(o, 0, a) && Numeral(o, one.nextId, b)
  {
    hide Encode, Growing, G.Installed, Numeral, Wiring, NewPort, ChurchSyms;
    var s := one.nextId;
    InstalledAgents(both, s, r);
    NumeralAgents(EMPTY, a);
    NumeralAgents(one, b);
    forall x: AgentId | 0 <= x < s ensures x in o.agents && o.agents[x] == one.agents[x] && x in one.agents {
      KeptAgent(one, b, x);
    }
    forall q | NewPort(0, a, q) && q != P(0, 0) ensures o.Target(q) == one.Target(q) {
      NewPortKind(0, a, q);
      C.OldKept(one, b, q);
      InstalledOld(both, s, r, q);
    }
    forall q | NewPort(s, b, q) && q != P(s, 0) ensures o.Target(q) == both.Target(q) {
      NewPortKind(s, b, q);
      InstalledOld(both, s, r, q);
    }
    NumeralBuilt(EMPTY, a, o);
    NumeralBuilt(one, b, o);
  }

  lemma NumeralAgents(n: Net, k: nat)
    requires Growing(n)
    ensures forall x: AgentId :: n.nextId <= x < n.nextId + ChurchSize(k) ==> x in Encode(n, k).agents
  {
    hide Encode, Growing, ChurchSyms;
    EncodeFrame(n, k);
  }

  lemma KeptAgent(n: Net, k: nat, x: AgentId)
    requires Growing(n) && x in n.agents
    ensures x in Encode(n, k).agents && Encode(n, k).agents[x] == n.agents[x]
  {
    hide Encode, Growing, ChurchSyms;
    EncodeFrame(n, k);
  }

  lemma AddFragment(n: Net, s: AgentId, r: Net, o: Net)
    requires G.Installed(n, G.Add, P(0, 0), P(s, 0), r) && s < n.nextId
    requires o.Target(P(n.nextId + 10, 1)) == FreePort(0)
    requires forall q: PortRef :: q.AgentPort? && q != P(n.nextId + 10, 1) ==> o.Target(q) == r.Target(q)
    ensures Fragment(o, s, n.nextId)
  {
    hide G.Installed, Binders, Applications;
    FragmentInstalled(n, s, r);
    BindersStay(r, o, n.nextId);
    ApplicationsStay(r, o, s, n.nextId);
  }

  // ----------------------------------------------------------------------- who meets whom

  /** The lambda or application that `x` is reduced with. */
  function Mate(s: AgentId, t: AgentId, x: AgentId): Option<AgentId> {
    if x == t then Some(t + 9) else if x == t + 9 then Some(t)
    else if x == t + 1 then Some(t + 10) else if x == t + 10 then Some(t + 1)
    else if x == t + 4 then Some(0) else if x == 0 then Some(t + 4)
    else if x == t + 7 then Some(1) else if x == 1 then Some(t + 7)
    else if x == t + 5 then Some(s) else if x == s then Some(t + 5)
    else if x == t + 6 then Some(s + 1) else if x == s + 1 then Some(t + 6)
    else None
  }

  function Mates(s: AgentId, t: AgentId): Match {
    map x | 0 <= x < t + 11 && Mate(s, t, x).Some? :: Mate(s, t, x).value
  }

  lemma MateAt(s: AgentId, t: AgentId, x: AgentId)
    requires s + 1 < t
    ensures x in Mates(s, t) <==> Mate(s, t, x).Some?
    ensures x in Mates(s, t) ==> Mates(s, t)[x] == Mate(s, t, x).value
  {}

  ghost predicate Setting(o: Net, a: nat, b: nat, s: AgentId, t: AgentId, gone: set<AgentId>, n: Net) {
    AddNet(o, a, b, s, t) && Contracted(o, Mates(s, t), gone, n) && Sound(n)
  }

  lemma Sizes(o: Net, a: nat, b: nat, s: AgentId, t: AgentId)
    requires AddNet(o, a, b, s, t)
    ensures 3 <= s && s + 3 <= t && Fragment(o, s, t) && Numeral(o, 0, a) && Numeral(o, s, b)
    ensures s == ChurchSize(a) && t == s + ChurchSize(b) && forall x: AgentId :: x in o.agents <==> x < t + 11
  {}

  lemma MatesMatch(o: Net, a: nat, b: nat, s: AgentId, t: AgentId)
    requires AddNet(o, a, b, s, t)
    ensures Matching(o, Mates(s, t))
  {
    hide Mates, Mate, Fragment, Numeral, AddNet;
    Sizes(o, a, b, s, t);
    forall x | x in Mates(s, t)
      ensures x in o.agents && o.agents[x].Con? && Mates(s, t)[x] in Mates(s, t)
      ensures Mates(s, t)[x] != x && Mates(s, t)[Mates(s, t)[x]] == x
    {
      MateAt(s, t, x);
      MateTwice(s, t, x);
      MateAt(s, t, Mate(s, t, x).value);
      MateIsCon(o, a, b, s, t, x);
    }
  }

  lemma MateTwice(s: AgentId, t: AgentId, x: AgentId)
    requires 3 <= s && s + 3 <= t && Mate(s, t, x).Some?
    ensures var y := Mate(s, t, x).value; y != x && Mate(s, t, y) == Some(x)
  {}

  lemma MateIsCon(o: Net, a: nat, b: nat, s: AgentId, t: AgentId, x: AgentId)
    requires AddNet(o, a, b, s, t) && Mate(s, t, x).Some?
    ensures x in o.agents && o.agents[x].Con?
  {
    hide Fragment;
  }

  /** A wire with at most one passage. */
  lemma OneHop(o: Net, mates: Match, gone: set<AgentId>, n: Net, p: PortRef, u: PortRef, v: PortRef)
    requires Contracted(o, mates, gone, n) && n.IsPort(p) && o.Target(p) == u
    requires u.AgentPort? && u.id in mates && 1 <= u.port <= 2 && o.Target(Across2(mates, u)) == v && !Inside(mates.Keys, v)
    ensures n.Target(p) == if u.id in gone then v else u
  {
    ContractedAgents(o, mates, gone, n);
    assert !Inside(gone, v);
    if u.id in gone {
      LeadsNow(o, mates, gone, Across2(mates, u));
      LeadsOn(o, mates, gone, p, v);
      WireOf(o, mates, gone, n, p, v);
    } else {
      LeadsNow(o, mates, gone, p);
      WireOf(o, mates, gone, n, p, u);
    }
  }

  /** A wire with no passage. */
  lemma NoHop(o: Net, mates: Match, gone: set<AgentId>, n: Net, p: PortRef)
    requires Contracted(o, mates, gone, n) && n.IsPort(p) && !Inside(mates.Keys, o.Target(p))
    ensures n.Target(p) == o.Target(p)
  {
    ContractedAgents(o, mates, gone, n);
    LeadsNow(o, mates, gone, p);
    WireOf(o, mates, gone, n, p, o.Target(p));
  }

  /** A wire through a couple: into `u`, out of its mate at `w`, and on to `v`. */
  lemma Hop(o: Net, a: nat, b: nat, s: AgentId, t: AgentId, gone: set<AgentId>, n: Net, p: PortRef, u: PortRef, w: PortRef, v: PortRef)
    requires Setting(o, a, b, s, t, gone, n) && n.IsPort(p) && o.Target(p) == u && o.Target(w) == v
    requires u.AgentPort? && 1 <= u.port <= 2 && s + 1 < t && Mate(s, t, u.id).Some? && w == P(Mate(s, t, u.id).value, 3 - u.port)
    requires v.AgentPort? && v.port != 0 ==> Mate(s, t, v.id).None?
    ensures n.Target(p) == if u.id in gone then v else u
  {
    MateAt(s, t, u.id);
    if v.AgentPort? { MateAt(s, t, v.id); }
    hide Contracted, AddNet, Sound, Mates, Mate;
    OneHop(o, Mates(s, t), gone, n, p, u, v);
  }

  /** A wire that meets no lambda or application from the side. */
  lemma Plain(o: Net, a: nat, b: nat, s: AgentId, t: AgentId, gone: set<AgentId>, n: Net, p: PortRef, v: PortRef)
    requires Setting(o, a, b, s, t, gone, n) && n.IsPort(p) && o.Target(p) == v && s + 1 < t
    requires v.AgentPort? && v.port != 0 ==> Mate(s, t, v.id).None?
    ensures n.Target(p) == v
  {
    if v.AgentPort? { MateAt(s, t, v.id); }
    hide Contracted, AddNet, Sound, Mates, Mate;
    NoHop(o, Mates(s, t), gone, n, p);
  }

  lemma LivePort(o: Net, a: nat, b: nat, s: AgentId, t: AgentId, gone: set<AgentId>, n: Net, x: AgentId, j: nat)
    requires Setting(o, a, b, s, t, gone, n) && x in n.agents && (j == 0 || (Mate(s, t, x).Some? && j <= 2))
    ensures n.IsPort(P(x, j)) && x in o.agents && n.agents[x] == o.agents[x]
  {
    ContractedAgents(o, Mates(s, t), gone, n);
    if j > 0 { MateIsCon(o, a, b, s, t, x); }
    hide Contracted, AddNet, Sound, Mates, Mate;
  }

  /** The two lambdas of a numeral. */
  ghost predicate Lambdas(o: Net, base: AgentId, k: nat) {
    && o.Target(P(base, 2)) == P(base + 1, 0) && o.Target(P(base + 1, 0)) == P(base, 2)
    && o.Target(P(base, 1)) == (if k <= 1 then P(base + 2, 0) else P(DupId(base, k, 0), 0))
    && o.Target(P(base + 1, 1)) == (if k == 0 then P(base + 1, 2) else P(AppId(base, k - 1), 2))
    && o.Target(P(base + 1, 2)) == (if k == 0 then P(base + 1, 1) else P(AppId(base, 0), 1))
  }

  lemma LambdasAt(o: Net, base: AgentId, k: nat)
    requires Lambdas(o, base, k)
    ensures o.Target(P(base, 2)) == P(base + 1, 0) && o.Target(P(base + 1, 0)) == P(base, 2)
  {}

  lemma Facts(o: Net, a: nat, b: nat, s: AgentId, t: AgentId, gone: set<AgentId>, n: Net)
    requires Setting(o, a, b, s, t, gone, n)
    ensures 3 <= s && s + 3 <= t && Fragment(o, s, t) && Lambdas(o, 0, a) && Lambdas(o, s, b)
  {
    hide Contracted, Sound, Fragment, Numeral;
    Sizes(o, a, b, s, t);
    LambdaWires(o, 0, a);
    LambdaWires(o, s, b);
  }

  // Where the principal ports of each couple lead: to each other, once the way is free.

  lemma CoupleM(o: Net, a: nat, b: nat, s: AgentId, t: AgentId, gone: set<AgentId>, n: Net)
    requires Setting(o, a, b, s, t, gone, n)
    ensures t in n.agents ==> n.Target(P(t, 0)) == P(t + 9, 0)
    ensures t + 9 in n.agents ==> n.Target(P(t + 9, 0)) == P(t, 0)
  {
    hide Setting, Lambdas;
    Facts(o, a, b, s, t, gone, n);
    LambdasAt(o, 0, a);
    LambdasAt(o, s, b);
    if t in n.agents {
      LivePort(o, a, b, s, t, gone, n, t, 0);
      Plain(o, a, b, s, t, gone, n, P(t, 0), P(t + 9, 0));
    }
    if t + 9 in n.agents {
      LivePort(o, a, b, s, t, gone, n, t + 9, 0);
      Plain(o, a, b, s, t, gone, n, P(t + 9, 0), P(t, 0));
    }
  }

  lemma CoupleN(o: Net, a: nat, b: nat, s: AgentId, t: AgentId, gone: set<AgentId>, n: Net)
    requires Setting(o, a, b, s, t, gone, n)
    ensures t + 1 in n.agents ==> n.Target(P(t + 1, 0)) == if t in gone then P(t + 10, 0) else P(t, 2)
    ensures t + 10 in n.agents ==> n.Target(P(t + 10, 0)) == if t + 9 in gone then P(t + 1, 0) else P(t + 9, 1)
  {
    hide Setting, Lambdas;
    Facts(o, a, b, s, t, gone, n);
    LambdasAt(o, 0, a);
    LambdasAt(o, s, b);
    if t + 1 in n.agents {
      LivePort(o, a, b, s, t, gone, n, t + 1, 0);
      Hop(o, a, b, s, t, gone, n, P(t + 1, 0), P(t, 2), P(t + 9, 1), P(t + 10, 0));
    }
    if t + 10 in n.agents {
      LivePort(o, a, b, s, t, gone, n, t + 10, 0);
      Hop(o, a, b, s, t, gone, n, P(t + 10, 0), P(t + 9, 1), P(t, 2), P(t + 1, 0));
    }
  }

  lemma CoupleMf(o: Net, a: nat, b: nat, s: AgentId, t: AgentId, gone: set<AgentId>, n: Net)
    requires Setting(o, a, b, s, t, gone, n)
    ensures t + 4 in n.agents ==> n.Target(P(t + 4, 0)) == if t in gone then P(0, 0) else P(t, 1)
    ensures 0 in n.agents ==> n.Target(P(0, 0)) == if t + 9 in gone then P(t + 4, 0) else P(t + 9, 2)
  {
    hide Setting, Lambdas;
    Facts(o, a, b, s, t, gone, n);
    LambdasAt(o, 0, a);
    LambdasAt(o, s, b);
    if t + 4 in n.agents {
      LivePort(o, a, b, s, t, gone, n, t + 4, 0);
      Hop(o, a, b, s, t, gone, n, P(t + 4, 0), P(t, 1), P(t + 9, 2), P(0, 0));
    }
    if 0 in n.agents {
      LivePort(o, a, b, s, t, gone, n, 0, 0);
      Hop(o, a, b, s, t, gone, n, P(0, 0), P(t + 9, 2), P(t, 1), P(t + 4, 0));
    }
  }

  lemma CoupleNf(o: Net, a: nat, b: nat, s: AgentId, t: AgentId, gone: set<AgentId>, n: Net)
    requires Setting(o, a, b, s, t, gone, n)
    ensures t + 5 in n.agents ==> n.Target(P(t + 5, 0)) == if t + 1 in gone then P(s, 0) else P(t + 1, 1)
    ensures s in n.agents ==> n.Target(P(s, 0)) == if t + 10 in gone then P(t + 5, 0) else P(t + 10, 2)
  {
    hide Setting, Lambdas;
    Facts(o, a, b, s, t, gone, n);
    LambdasAt(o, 0, a);
    LambdasAt(o, s, b);
    if t + 5 in n.agents {
      LivePort(o, a, b, s, t, gone, n, t + 5, 0);
      Hop(o, a, b, s, t, gone, n, P(t + 5, 0), P(t + 1, 1), P(t + 10, 2), P(s, 0));
    }
    if s in n.agents {
      LivePort(o, a, b, s, t, gone, n, s, 0);
      Hop(o, a, b, s, t, gone, n, P(s, 0), P(t + 10, 2), P(t + 1, 1), P(t + 5, 0));
    }
  }

  lemma CoupleAll(o: Net, a: nat, b: nat, s: AgentId, t: AgentId, gone: set<AgentId>, n: Net)
    requires Setting(o, a, b, s, t, gone, n)
    ensures t + 7 in n.agents ==> n.Target(P(t + 7, 0)) == if t + 4 in gone then P(1, 0) else P(t + 4, 1)
    ensures 1 in n.agents ==> n.Target(P(1, 0)) == if 0 in gone then P(t + 7, 0) else P(0, 2)
  {
    hide Setting, Lambdas;
    Facts(o, a, b, s, t, gone, n);
    LambdasAt(o, 0, a);
    LambdasAt(o, s, b);
    if t + 7 in n.agents {
      LivePort(o, a, b, s, t, gone, n, t + 7, 0);
      Hop(o, a, b, s, t, gone, n, P(t + 7, 0), P(t + 4, 1), P(0, 2), P(1, 0));
    }
    if 1 in n.agents {
      LivePort(o, a, b, s, t, gone, n, 1, 0);
      Hop(o, a, b, s, t, gone, n, P(1, 0), P(0, 2), P(t + 4, 1), P(t + 7, 0));
    }
  }

  lemma CoupleNfx(o: Net, a: nat, b: nat, s: AgentId, t: AgentId, gone: set<AgentId>, n: Net)
    requires Setting(o, a, b, s, t, gone, n)
    ensures t + 6 in n.agents ==> n.Target(P(t + 6, 0)) == if t + 5 in gone then P(s + 1, 0) else P(t + 5, 1)
    ensures s + 1 in n.agents ==> n.Target(P(s + 1, 0)) == if s in gone then P(t + 6, 0) else P(s, 2)
  {
    hide Setting, Lambdas;
    Facts(o, a, b, s, t, gone, n);
    LambdasAt(o, 0, a);
    LambdasAt(o, s, b);
    if t + 6 in n.agents {
      LivePort(o, a, b, s, t, gone, n, t + 6, 0);
      Hop(o, a, b, s, t, gone, n, P(t + 6, 0), P(t + 5, 1), P(s, 2), P(s + 1, 0));
    }
    if s + 1 in n.agents {
      LivePort(o, a, b, s, t, gone, n, s + 1, 0);
      Hop(o, a, b, s, t, gone, n, P(s + 1, 0), P(s, 2), P(t + 5, 1), P(t + 6, 0));
    }
  }

  lemma LambdaWires(o: Net, base: AgentId, k: nat)
    requires Numeral(o, base, k)
    ensures Lambdas(o, base, k)
  {
    assert NewPort(base, k, P(base, 2)) && NewPort(base, k, P(base + 1, 0)) && NewPort(base, k, P(base, 1));
    assert NewPort(base, k, P(base + 1, 1)) && NewPort(base, k, P(base + 1, 2));
  }

  /** The lambdas f and x and the duplicator are not reduced: they face nothing. */
  lemma RestPrincipal(o: Net, a: nat, b: nat, s: AgentId, t: AgentId, gone: set<AgentId>, n: Net)
    requires Setting(o, a, b, s, t, gone, n)
    ensures t + 2 in n.agents && n.Target(P(t + 2, 0)) == if t + 1 in gone then FreePort(0) else P(t + 1, 2)
    ensures t + 3 in n.agents && n.Target(P(t + 3, 0)) == P(t + 2, 2)
    ensures t + 8 in n.agents && n.Target(P(t + 8, 0)) == P(t + 2, 1)
  {
    hide Setting, Lambdas;
    Facts(o, a, b, s, t, gone, n);
    Stay(o, a, b, s, t, gone, n, t + 2);
    Stay(o, a, b, s, t, gone, n, t + 3);
    Stay(o, a, b, s, t, gone, n, t + 8);
    Hop(o, a, b, s, t, gone, n, P(t + 2, 0), P(t + 1, 2), P(t + 10, 1), FreePort(0));
    Plain(o, a, b, s, t, gone, n, P(t + 3, 0), P(t + 2, 2));
    Plain(o, a, b, s, t, gone, n, P(t + 8, 0), P(t + 2, 1));
  }

  lemma Stay(o: Net, a: nat, b: nat, s: AgentId, t: AgentId, gone: set<AgentId>, n: Net, x: AgentId)
    requires Setting(o, a, b, s, t, gone, n) && x < t + 11 && Mate(s, t, x).None?
    ensures x in n.agents && n.IsPort(P(x, 0)) && n.agents[x] == o.agents[x]
  {
    hide Setting, Contracted, AddNet, Sound, Mates, Mate, Fragment, Numeral;
    NetOf(o, a, b, s, t, gone, n);
    Sizes(o, a, b, s, t);
    MateAt(s, t, x);
    ContractedAgents(o, Mates(s, t), gone, n);
  }

  /** Inside a numeral no principal port leads to another one. */
  lemma InnerPrincipal(base: AgentId, k: nat, x: AgentId)
    requires base + 2 <= x < base + ChurchSize(k)
    ensures var u := Wiring(base, k, P(x, 0)); NewPort(base, k, P(x, 0)) && u.AgentPort? && 1 <= u.port <= 2
    ensures var u := Wiring(base, k, P(x, 0)); u == P(base, 1) || base + 2 <= u.id < base + ChurchSize(k)
  {}

  lemma NumeralWire(o: Net, base: AgentId, k: nat, q: PortRef)
    requires Numeral(o, base, k) && NewPort(base, k, q) && q != P(base, 0)
    ensures o.Target(q) == Wiring(base, k, q)
  {}

  lemma FirstPrincipal(o: Net, a: nat, b: nat, s: AgentId, t: AgentId, gone: set<AgentId>, n: Net, x: AgentId)
    requires Setting(o, a, b, s, t, gone, n) && 2 <= x < s
    ensures x in n.agents && n.Target(P(x, 0)).AgentPort? && 1 <= n.Target(P(x, 0)).port <= 2
    ensures n.agents[x] == KindOf(0, a, x)
    ensures var u := Wiring(0, a, P(x, 0)); n.Target(P(x, 0)) == if u == P(0, 1) && 0 in gone then P(t + 8, 1) else u
  {
    hide Setting, Lambdas, Wiring, NewPort, AddNet, Contracted, Sound, Numeral, Applications;
    Facts(o, a, b, s, t, gone, n);
    Stay(o, a, b, s, t, gone, n, x);
    NetOf(o, a, b, s, t, gone, n);
    Sizes(o, a, b, s, t);
    InnerPrincipal(0, a, x);
    NumeralKind(o, 0, a, x);
    NumeralWire(o, 0, a, P(x, 0));
    var u := o.Target(P(x, 0));
    if u == P(0, 1) {
      Hop(o, a, b, s, t, gone, n, P(x, 0), P(0, 1), P(t + 4, 2), P(t + 8, 1));
    } else {
      Plain(o, a, b, s, t, gone, n, P(x, 0), u);
    }
  }

  lemma SecondPrincipal(o: Net, a: nat, b: nat, s: AgentId, t: AgentId, gone: set<AgentId>, n: Net, x: AgentId)
    requires Setting(o, a, b, s, t, gone, n) && s + 2 <= x < t
    ensures x in n.agents && n.Target(P(x, 0)).AgentPort? && 1 <= n.Target(P(x, 0)).port <= 2
    ensures n.agents[x] == KindOf(s, b, x)
    ensures var u := Wiring(s, b, P(x, 0)); n.Target(P(x, 0)) == if u == P(s, 1) && s in gone then P(t + 8, 2) else u
  {
    hide Setting, Lambdas, Wiring, NewPort, AddNet, Contracted, Sound, Numeral, Applications;
    Facts(o, a, b, s, t, gone, n);
    Stay(o, a, b, s, t, gone, n, x);
    NetOf(o, a, b, s, t, gone, n);
    Sizes(o, a, b, s, t);
    InnerPrincipal(s, b, x);
    NumeralKind(o, s, b, x);
    NumeralWire(o, s, b, P(x, 0));
    var u := o.Target(P(x, 0));
    if u == P(s, 1) {
      Hop(o, a, b, s, t, gone, n, P(x, 0), P(s, 1), P(t + 5, 2), P(t + 8, 2));
    } else {
      Plain(o, a, b, s, t, gone, n, P(x, 0), u);
    }
  }

  lemma NumeralPrincipal(o: Net, a: nat, b: nat, s: AgentId, t: AgentId, gone: set<AgentId>, n: Net, x: AgentId)
    requires Setting(o, a, b, s, t, gone, n) && (2 <= x < s || s + 2 <= x < t)
    ensures x in n.agents && n.Target(P(x, 0)).AgentPort? && 1 <= n.Target(P(x, 0)).port <= 2
  {
    hide Setting;
    if x < s { FirstPrincipal(o, a, b, s, t, gone, n, x); } else { SecondPrincipal(o, a, b, s, t, gone, n, x); }
  }

  lemma NetOf(o: Net, a: nat, b: nat, s: AgentId, t: AgentId, gone: set<AgentId>, n: Net)
    requires Setting(o, a, b, s, t, gone, n)
    ensures AddNet(o, a, b, s, t) && Sound(n) && Contracted(o, Mates(s, t), gone, n)
  {}

  /** Only couples face each other. */
  lemma OnlyCouples(o: Net, a: nat, b: nat, s: AgentId, t: AgentId, gone: set<AgentId>, n: Net, x: AgentId, y: AgentId)
    requires Setting(o, a, b, s, t, gone, n) && x in n.agents && n.Target(P(x, 0)) == P(y, 0)
    ensures Mate(s, t, x) == Some(y)
  {
    hide Setting, Lambdas, Fragment;
    Facts(o, a, b, s, t, gone, n);
    Within(o, a, b, s, t, gone, n, x);
    CoupleM(o, a, b, s, t, gone, n);
    CoupleN(o, a, b, s, t, gone, n);
    CoupleMf(o, a, b, s, t, gone, n);
    CoupleNf(o, a, b, s, t, gone, n);
    CoupleAll(o, a, b, s, t, gone, n);
    CoupleNfx(o, a, b, s, t, gone, n);
    RestPrincipal(o, a, b, s, t, gone, n);
    if 2 <= x < s || s + 2 <= x < t { NumeralPrincipal(o, a, b, s, t, gone, n, x); }
  }

  lemma Within(o: Net, a: nat, b: nat, s: AgentId, t: AgentId, gone: set<AgentId>, n: Net, x: AgentId)
    requires Setting(o, a, b, s, t, gone, n) && x in n.agents
    ensures x < t + 11 && x in o.agents
  {
    ContractedAgents(o, Mates(s, t), gone, n);
    Sizes(o, a, b, s, t);
    hide Contracted, AddNet, Sound, Mates, Mate;
  }

  // ----------------------------------------------------------------------- they are clean

  /** Two constructors none of whose auxiliary ports is joined to the port it would be
      annihilated with. */
  lemma ApartIsClean(n: Net, x: AgentId, y: AgentId)
    requires Pair(n, x, y) && n.agents[x].Con? && n.agents[y].Con? && Sound(n)
    requires (n.Target(P(x, 1)) != P(y, 1) && n.Target(P(x, 2)) != P(y, 2)) || (n.Target(P(y, 1)) != P(x, 1) && n.Target(P(y, 2)) != P(x, 2))
    ensures Clean(n, x, y)
  {
    assert n.IsPort(P(x, 1)) && n.IsPort(P(x, 2)) && n.IsPort(P(y, 1)) && n.IsPort(P(y, 2));
  }

  ghost predicate Apart(n: Net, x: AgentId, y: AgentId) {
    n.Target(P(x, 1)) != P(y, 1) && n.Target(P(x, 2)) != P(y, 2)
  }

  /** Both wires of an outer lambda lead to principal ports. */
  lemma OuterApart(o: Net, a: nat, b: nat, s: AgentId, t: AgentId, gone: set<AgentId>, n: Net)
    requires Setting(o, a, b, s, t, gone, n)
    ensures t in n.agents ==> Apart(n, t, t + 9)
    ensures t + 1 in n.agents ==> Apart(n, t + 1, t + 10)
  {
    hide Setting, Lambdas;
    Facts(o, a, b, s, t, gone, n);
    if t in n.agents {
      LivePort(o, a, b, s, t, gone, n, t, 1);
      LivePort(o, a, b, s, t, gone, n, t, 2);
      Plain(o, a, b, s, t, gone, n, P(t, 1), P(t + 4, 0));
      Plain(o, a, b, s, t, gone, n, P(t, 2), P(t + 1, 0));
    }
    if t + 1 in n.agents {
      LivePort(o, a, b, s, t, gone, n, t + 1, 1);
      LivePort(o, a, b, s, t, gone, n, t + 1, 2);
      Plain(o, a, b, s, t, gone, n, P(t + 1, 1), P(t + 5, 0));
      Plain(o, a, b, s, t, gone, n, P(t + 1, 2), P(t + 2, 0));
    }
  }

  /** So do those of the outer lambda of a numeral. */
  lemma NumeralApart(o: Net, a: nat, b: nat, s: AgentId, t: AgentId, gone: set<AgentId>, n: Net)
    requires Setting(o, a, b, s, t, gone, n)
    ensures 0 in n.agents ==> Apart(n, 0, t + 4)
    ensures s in n.agents ==> Apart(n, s, t + 5)
  {
    hide Setting, Fragment;
    Facts(o, a, b, s, t, gone, n);
    if 0 in n.agents {
      LivePort(o, a, b, s, t, gone, n, 0, 1);
      LivePort(o, a, b, s, t, gone, n, 0, 2);
      Plain(o, a, b, s, t, gone, n, P(0, 1), o.Target(P(0, 1)));
      Plain(o, a, b, s, t, gone, n, P(0, 2), P(1, 0));
    }
    if s in n.agents {
      LivePort(o, a, b, s, t, gone, n, s, 1);
      LivePort(o, a, b, s, t, gone, n, s, 2);
      Plain(o, a, b, s, t, gone, n, P(s, 1), o.Target(P(s, 1)));
      Plain(o, a, b, s, t, gone, n, P(s, 2), P(s + 1, 0));
    }
  }

  /** The wires of an inner lambda: to its applications, or to each other. */
  lemma InnerWires(o: Net, a: nat, b: nat, s: AgentId, t: AgentId, gone: set<AgentId>, n: Net)
    requires Setting(o, a, b, s, t, gone, n)
    ensures 1 in n.agents ==> n.Target(P(1, 1)) == o.Target(P(1, 1)) && n.Target(P(1, 2)) == o.Target(P(1, 2))
    ensures s + 1 in n.agents ==> n.Target(P(s + 1, 1)) == o.Target(P(s + 1, 1)) && n.Target(P(s + 1, 2)) == o.Target(P(s + 1, 2))
  {
    hide Setting, Fragment, AddNet, Contracted, Sound;
    Facts(o, a, b, s, t, gone, n);
    NetOf(o, a, b, s, t, gone, n);
    AppsInside(o, a, b, s, t);
    if 1 in n.agents {
      LivePort(o, a, b, s, t, gone, n, 1, 1);
      LivePort(o, a, b, s, t, gone, n, 1, 2);
      Own(o, a, b, s, t, gone, n, 1, 1);
      Own(o, a, b, s, t, gone, n, 1, 2);
    }
    if s + 1 in n.agents {
      LivePort(o, a, b, s, t, gone, n, s + 1, 1);
      LivePort(o, a, b, s, t, gone, n, s + 1, 2);
      Own(o, a, b, s, t, gone, n, s + 1, 1);
      Own(o, a, b, s, t, gone, n, s + 1, 2);
    }
  }

  lemma AppsInside(o: Net, a: nat, b: nat, s: AgentId, t: AgentId)
    requires AddNet(o, a, b, s, t)
    ensures forall i :: 0 <= i < a ==> 2 <= AppId(0, i) < s
    ensures forall i :: 0 <= i < b ==> s + 2 <= AppId(s, i) < t
  {}

  /** A wire to a port of an agent that is still there. */
  lemma Own(o: Net, a: nat, b: nat, s: AgentId, t: AgentId, gone: set<AgentId>, n: Net, x: AgentId, j: nat)
    requires Setting(o, a, b, s, t, gone, n) && x in n.agents && n.IsPort(P(x, j)) && s + 1 < t
    requires var v := o.Target(P(x, j)); v.AgentPort? && (v.id == x || Mate(s, t, v.id).None?)
    ensures n.Target(P(x, j)) == o.Target(P(x, j))
  {
    var v := o.Target(P(x, j));
    hide Setting, Mate, Mates;
    NetOf(o, a, b, s, t, gone, n);
    hide Contracted, AddNet, Sound;
    ContractedAgents(o, Mates(s, t), gone, n);
    MateAt(s, t, v.id);
    LeadsNow(o, Mates(s, t), gone, P(x, j));
    WireOf(o, Mates(s, t), gone, n, P(x, j), v);
  }

  lemma InnerApart(o: Net, a: nat, b: nat, s: AgentId, t: AgentId, gone: set<AgentId>, n: Net)
    requires Setting(o, a, b, s, t, gone, n)
    ensures 1 in n.agents ==> Apart(n, 1, t + 7)
    ensures s + 1 in n.agents ==> Apart(n, s + 1, t + 6)
  {
    hide Setting, Fragment;
    Facts(o, a, b, s, t, gone, n);
    NetOf(o, a, b, s, t, gone, n);
    AppsInside(o, a, b, s, t);
    hide AddNet, Contracted, Sound;
    InnerWires(o, a, b, s, t, gone, n);
  }

  lemma CoupleClean(o: Net, a: nat, b: nat, s: AgentId, t: AgentId, gone: set<AgentId>, n: Net, x: AgentId, y: AgentId)
    requires Setting(o, a, b, s, t, gone, n) && Pair(n, x, y) && Mate(s, t, x) == Some(y)
    ensures Clean(n, x, y)
  {
    hide Setting, Apart, Clean, Sound, Contracted, AddNet, Fragment, Numeral, Mates, Pair;
    NetOf(o, a, b, s, t, gone, n);
    Sizes(o, a, b, s, t);
    MateTwice(s, t, x);
    PairLive(n, x, y);
    LivePort(o, a, b, s, t, gone, n, x, 0);
    LivePort(o, a, b, s, t, gone, n, y, 0);
    MateIsCon(o, a, b, s, t, x);
    MateIsCon(o, a, b, s, t, y);
    OuterApart(o, a, b, s, t, gone, n);
    NumeralApart(o, a, b, s, t, gone, n);
    InnerApart(o, a, b, s, t, gone, n);
    assert Apart(n, x, y) || Apart(n, y, x);
    ApartClean(n, x, y);
  }

  lemma PairLive(n: Net, x: AgentId, y: AgentId)
    requires Pair(n, x, y)
    ensures x in n.agents && y in n.agents
  {}

  lemma ApartClean(n: Net, x: AgentId, y: AgentId)
    requires Pair(n, x, y) && n.agents[x].Con? && n.agents[y].Con? && Sound(n) && (Apart(n, x, y) || Apart(n, y, x))
    ensures Clean(n, x, y)
  {
    hide Sound;
    ApartIsClean(n, x, y);
  }

  lemma AddSafe(o: Net, a: nat, b: nat, s: AgentId, t: AgentId)
    requires AddNet(o, a, b, s, t)
    ensures Safe(o, Mates(s, t))
  {
    hide Contracted, Sound, Pair, Clean, Mates, Mate, Matching, Fragment, Numeral;
    MatesMatch(o, a, b, s, t);
    forall gone, n, x, y | Contracted(o, Mates(s, t), gone, n) && Sound(n) && Pair(n, x, y)
      ensures x in Mates(s, t) && Mates(s, t)[x] == y && Clean(n, x, y)
    {
      CoupleSafe(o, a, b, s, t, gone, n, x, y);
    }
  }

  lemma CoupleSafe(o: Net, a: nat, b: nat, s: AgentId, t: AgentId, gone: set<AgentId>, n: Net, x: AgentId, y: AgentId)
    requires AddNet(o, a, b, s, t) && Contracted(o, Mates(s, t), gone, n) && Sound(n) && Pair(n, x, y)
    ensures x in Mates(s, t) && Mates(s, t)[x] == y && Clean(n, x, y)
  {
    hide Contracted, Sound, Clean, Mates, Mate, AddNet;
    assert Setting(o, a, b, s, t, gone, n);
    hide Setting;
    Sizes(o, a, b, s, t);
    OnlyCouples(o, a, b, s, t, gone, n, x, y);
    CoupleClean(o, a, b, s, t, gone, n, x, y);
    MateAt(s, t, x);
  }

  // ----------------------------------------------------------------------- six interactions

  lemma GoneTogether(o: Net, a: nat, b: nat, s: AgentId, t: AgentId, gone: set<AgentId>, n: Net, x: AgentId)
    requires Setting(o, a, b, s, t, gone, n) && Mate(s, t, x).Some?
    ensures x in gone <==> Mate(s, t, x).value in gone
    ensures x !in gone ==> x in n.agents && Mate(s, t, x).value in n.agents
  {
    hide Setting, Contracted, Sound, Mates, Mate, AddNet, Fragment, Numeral;
    NetOf(o, a, b, s, t, gone, n);
    Sizes(o, a, b, s, t);
    ContractedAgents(o, Mates(s, t), gone, n);
    MateTwice(s, t, x);
    MateAt(s, t, x);
    MateAt(s, t, Mate(s, t, x).value);
    MateIsCon(o, a, b, s, t, x);
    MateIsCon(o, a, b, s, t, Mate(s, t, x).value);
  }

  lemma Facing(n: Net, x: AgentId, y: AgentId)
    requires x in n.agents && y in n.agents && n.Target(P(x, 0)) == P(y, 0)
    ensures !R.IsNormalForm(n)
  {
    assert Faces(n, x, y);
  }

  /** While a couple is left, some couple can be reduced. */
  lemma Progress(o: Net, a: nat, b: nat, s: AgentId, t: AgentId, gone: set<AgentId>, n: Net)
    requires Setting(o, a, b, s, t, gone, n) && R.IsNormalForm(n)
    ensures t in gone && t + 1 in gone && t + 4 in gone && t + 5 in gone && t + 7 in gone && t + 6 in gone
  {
    hide Setting, R.IsNormalForm, Contracted, Sound, Mates, AddNet, Fragment, Numeral;
    GoneTogether(o, a, b, s, t, gone, n, t);
    GoneTogether(o, a, b, s, t, gone, n, t + 1);
    GoneTogether(o, a, b, s, t, gone, n, t + 4);
    GoneTogether(o, a, b, s, t, gone, n, t + 5);
    GoneTogether(o, a, b, s, t, gone, n, t + 7);
    GoneTogether(o, a, b, s, t, gone, n, t + 6);
    CoupleM(o, a, b, s, t, gone, n);
    CoupleN(o, a, b, s, t, gone, n);
    CoupleMf(o, a, b, s, t, gone, n);
    CoupleNf(o, a, b, s, t, gone, n);
    CoupleAll(o, a, b, s, t, gone, n);
    CoupleNfx(o, a, b, s, t, gone, n);
    if t !in gone { Facing(n, t, t + 9); }
    else if t + 1 !in gone { Facing(n, t + 1, t + 10); }
    else if t + 4 !in gone { Facing(n, t + 4, 0); }
    else if t + 5 !in gone { Facing(n, t + 5, s); }
    else if t + 7 !in gone { Facing(n, t + 7, 1); }
    else if t + 6 !in gone { Facing(n, t + 6, s + 1); }
  }

  lemma AllGone(o: Net, a: nat, b: nat, s: AgentId, t: AgentId, gone: set<AgentId>, n: Net)
    requires Setting(o, a, b, s, t, gone, n)
    ensures gone <= Mates(s, t).Keys && (R.IsNormalForm(n) <==> gone == Mates(s, t).Keys)
  {
    hide Setting, R.IsNormalForm, Contracted, Sound, Mates, AddNet, Fragment, Numeral, Mate;
    NetOf(o, a, b, s, t, gone, n);
    Sizes(o, a, b, s, t);
    ContractedAgents(o, Mates(s, t), gone, n);
    if R.IsNormalForm(n) {
      Progress(o, a, b, s, t, gone, n);
      forall x | x in Mates(s, t) ensures x in gone {
        MateAt(s, t, x);
        GoneTogether(o, a, b, s, t, gone, n, x);
        HalfMates(s, t, x);
      }
    }
    if gone == Mates(s, t).Keys { NothingFaces(o, a, b, s, t, gone, n); }
  }

  lemma HalfMates(s: AgentId, t: AgentId, x: AgentId)
    requires Mate(s, t, x).Some?
    ensures x in {t, t + 1, t + 4, t + 5, t + 7, t + 6} || Mate(s, t, x).value in {t, t + 1, t + 4, t + 5, t + 7, t + 6}
  {}

  lemma NothingFaces(o: Net, a: nat, b: nat, s: AgentId, t: AgentId, gone: set<AgentId>, n: Net)
    requires Setting(o, a, b, s, t, gone, n) && gone == Mates(s, t).Keys && s + 1 < t
    ensures R.IsNormalForm(n)
  {
    hide Setting, Contracted, Sound, Mates, AddNet, Fragment, Numeral, Mate;
    NetOf(o, a, b, s, t, gone, n);
    ContractedAgents(o, Mates(s, t), gone, n);
    forall x, y ensures !Faces(n, x, y) {
      if Faces(n, x, y) {
        OnlyCouples(o, a, b, s, t, gone, n, x, y);
        MateAt(s, t, x);
      }
    }
  }

  function Some4(w: AgentId, x: AgentId, y: AgentId, z: AgentId): set<AgentId> {
    {w, x, y, z}
  }

  lemma Size4(w: AgentId, x: AgentId, y: AgentId, z: AgentId)
    requires w < x < y < z
    ensures |Some4(w, x, y, z)| == 4
  {}

  lemma MateKeys(s: AgentId, t: AgentId, x: AgentId)
    requires 3 <= s && s + 3 <= t
    ensures x in Mates(s, t) <==> x in Some4(0, 1, s, s + 1) + Some4(t, t + 1, t + 4, t + 5) + Some4(t + 6, t + 7, t + 9, t + 10)
  {
    hide Mates;
    MateAt(s, t, x);
  }

  lemma Below4(w: AgentId, x: AgentId, y: AgentId, z: AgentId, w': AgentId, x': AgentId, y': AgentId, z': AgentId)
    requires w < x < y < z < w' < x' < y' < z'
    ensures Some4(w, x, y, z) !! Some4(w', x', y', z')
  {}

  lemma Sum3(u: set<AgentId>, v: set<AgentId>, w: set<AgentId>)
    requires u !! v && u !! w && v !! w
    ensures |u + v + w| == |u| + |v| + |w|
  {
    assert (u + v) !! w;
  }

  lemma SameSet(u: set<AgentId>, v: set<AgentId>)
    requires forall x: AgentId :: x in u <==> x in v
    ensures u == v
  {}

  lemma TwelveMates(s: AgentId, t: AgentId)
    requires 3 <= s && s + 3 <= t
    ensures |Mates(s, t).Keys| == 12
  {
    hide *;
    var u, v, w := Some4(0, 1, s, s + 1), Some4(t, t + 1, t + 4, t + 5), Some4(t + 6, t + 7, t + 9, t + 10);
    Below4(0, 1, s, s + 1, t, t + 1, t + 4, t + 5);
    Below4(0, 1, s, s + 1, t + 6, t + 7, t + 9, t + 10);
    Below4(t, t + 1, t + 4, t + 5, t + 6, t + 7, t + 9, t + 10);
    Size4(0, 1, s, s + 1);
    Size4(t, t + 1, t + 4, t + 5);
    Size4(t + 6, t + 7, t + 9, t + 10);
    Sum3(u, v, w);
    forall x: AgentId ensures x in Mates(s, t).Keys <==> x in u + v + w { MateKeys(s, t, x); }
    SameSet(Mates(s, t).Keys, u + v + w);
  }

  /** Every run makes at most six interactions, and is at a normal form after exactly six. */
  lemma AddRuns(o: Net, a: nat, b: nat, s: AgentId, t: AgentId, run: seq<Move>)
    requires AddNet(o, a, b, s, t) && Sound(o) && AllocOk(o) && Legal(o, run)
    ensures |run| <= 6 && (R.IsNormalForm(After(o, run)) <==> |run| == 6)
    ensures |run| == 6 ==> Setting(o, a, b, s, t, Mates(s, t).Keys, After(o, run))
  {
    hide AddNet, Sound, AllocOk, Legal, After, R.IsNormalForm, Contracted, Mates, Safe, Fragment, Numeral;
    Sizes(o, a, b, s, t);
    AddSafe(o, a, b, s, t);
    ContractedStart(o, Mates(s, t));
    var gone := RunContracts(o, Mates(s, t), {}, o, run);
    AllGone(o, a, b, s, t, gone, After(o, run));
    TwelveMates(s, t);
    Subset(gone, Mates(s, t).Keys);
  }

  lemma Subset(s: set<AgentId>, t: set<AgentId>)
    requires s <= t
    ensures |s| <= |t| && (|s| == |t| <==> s == t)
  {
    assert |t| == |s| + |t - s|;
    if s != t { var x :| x in t - s; }
  }

  // ------------------------------------------------------------------------ what is left

  /** All couples are gone. */
  ghost predicate Done(o: Net, a: nat, b: nat, s: AgentId, t: AgentId, n: Net) {
    Setting(o, a, b, s, t, Mates(s, t).Keys, n)
  }

  lemma DoneIs(o: Net, a: nat, b: nat, s: AgentId, t: AgentId, n: Net)
    requires Done(o, a, b, s, t, n)
    ensures Setting(o, a, b, s, t, Mates(s, t).Keys, n)
  {}

  /** A thread that goes into `u` and out of its mate at `w`. */
  lemma Through(o: Net, s: AgentId, t: AgentId, p: PortRef, u: PortRef, w: PortRef, v: PortRef)
    requires s + 1 < t && o.Target(p) == u && u.AgentPort? && 1 <= u.port <= 2
    requires Mate(s, t, u.id).Some? && w == P(Mate(s, t, u.id).value, 3 - u.port) && Leads(o, Mates(s, t), Mates(s, t).Keys, w, v)
    ensures Leads(o, Mates(s, t), Mates(s, t).Keys, p, v)
  {
    MateAt(s, t, u.id);
    hide Mates, Mate, Leads;
    LeadsOn(o, Mates(s, t), Mates(s, t).Keys, p, v);
  }

  lemma Arrives(o: Net, s: AgentId, t: AgentId, p: PortRef, v: PortRef)
    requires s + 1 < t && o.Target(p) == v && (v.AgentPort? && v.port != 0 ==> Mate(s, t, v.id).None?)
    ensures Leads(o, Mates(s, t), Mates(s, t).Keys, p, v)
  {
    if v.AgentPort? { MateAt(s, t, v.id); }
    hide Mates, Mate;
    LeadsNow(o, Mates(s, t), Mates(s, t).Keys, p);
  }

  /** Where the second numeral's body, and the first's, begins. */
  function SecondHead(b: nat, s: AgentId, t: AgentId): PortRef {
    if b > 0 then P(AppId(s, 0), 1) else P(t + 3, 1)
  }

  function FirstHead(a: nat, b: nat, s: AgentId, t: AgentId): PortRef {
    if a > 0 then P(AppId(0, 0), 1) else SecondHead(b, s, t)
  }

  lemma SecondThread(o: Net, a: nat, b: nat, s: AgentId, t: AgentId, n: Net)
    requires Done(o, a, b, s, t, n)
    ensures Leads(o, Mates(s, t), Mates(s, t).Keys, P(t + 7, 2), SecondHead(b, s, t))
    ensures Leads(o, Mates(s, t), Mates(s, t).Keys, P(t + 6, 2), P(t + 3, 1))
  {
    hide Setting, Leads, Mates, AddNet, Contracted, Sound;
    Facts(o, a, b, s, t, Mates(s, t).Keys, n);
    NetOf(o, a, b, s, t, Mates(s, t).Keys, n);
    AppsInside(o, a, b, s, t);
    Arrives(o, s, t, P(t + 6, 2), P(t + 3, 1));
    if b == 0 {
      Through(o, s, t, P(s + 1, 2), P(s + 1, 1), P(t + 6, 2), P(t + 3, 1));
    } else {
      Arrives(o, s, t, P(s + 1, 2), P(AppId(s, 0), 1));
    }
    Through(o, s, t, P(t + 7, 2), P(t + 6, 1), P(s + 1, 2), SecondHead(b, s, t));
  }

  lemma FirstThread(o: Net, a: nat, b: nat, s: AgentId, t: AgentId, n: Net)
    requires Done(o, a, b, s, t, n)
    ensures Leads(o, Mates(s, t), Mates(s, t).Keys, P(t + 3, 2), FirstHead(a, b, s, t))
  {
    hide Setting, Leads, Mates, AddNet, Contracted, Sound, SecondHead;
    SecondThread(o, a, b, s, t, n);
    Facts(o, a, b, s, t, Mates(s, t).Keys, n);
    NetOf(o, a, b, s, t, Mates(s, t).Keys, n);
    AppsInside(o, a, b, s, t);
    if a == 0 {
      Through(o, s, t, P(1, 2), P(1, 1), P(t + 7, 2), SecondHead(b, s, t));
    } else {
      Arrives(o, s, t, P(1, 2), P(AppId(0, 0), 1));
    }
    Through(o, s, t, P(t + 3, 2), P(t + 7, 1), P(1, 2), FirstHead(a, b, s, t));
  }

  lemma AppWire(base: AgentId, k: nat, i: nat)
    requires i < k
    ensures NewPort(base, k, P(AppId(base, i), 2))
    ensures Wiring(base, k, P(AppId(base, i), 2)) == if i == k - 1 then P(base + 1, 1) else P(AppId(base, i + 1), 1)
  {}

  lemma EndIs(o: Net, a: nat, b: nat, s: AgentId, t: AgentId, n: Net, p: PortRef, v: PortRef)
    requires Done(o, a, b, s, t, n) && n.IsPort(p) && Leads(o, Mates(s, t), Mates(s, t).Keys, p, v)
    ensures n.Target(p) == v
  {
    hide Leads, AddNet, Sound, Mates, Contracted;
    WireOf(o, Mates(s, t), Mates(s, t).Keys, n, p, v);
  }

  lemma StillCon(o: Net, a: nat, b: nat, s: AgentId, t: AgentId, n: Net, x: AgentId)
    requires Done(o, a, b, s, t, n)
    requires x == t + 2 || x == t + 3 || 2 <= x < 2 + a || s + 2 <= x < s + 2 + b
    ensures Has(n, x, Con) && n.IsPort(P(x, 0)) && n.IsPort(P(x, 1)) && n.IsPort(P(x, 2)) && Mate(s, t, x).None?
  {
    hide Setting, Contracted, Sound, Mates, Fragment;
    Facts(o, a, b, s, t, Mates(s, t).Keys, n);
    NetOf(o, a, b, s, t, Mates(s, t).Keys, n);
    Stay(o, a, b, s, t, Mates(s, t).Keys, n, x);
    KindAt(o, a, b, s, t, x);
  }

  lemma KindAt(o: Net, a: nat, b: nat, s: AgentId, t: AgentId, x: AgentId)
    requires AddNet(o, a, b, s, t) && (x == t + 2 || x == t + 3 || 2 <= x < 2 + a || s + 2 <= x < s + 2 + b)
    ensures x in o.agents && o.agents[x].Con? && x < t + 11 && Mate(s, t, x).None?
  {
    hide Fragment;
  }

  /** The applications of the first numeral. */
  lemma FirstApps(o: Net, a: nat, b: nat, s: AgentId, t: AgentId, n: Net, i: nat)
    requires Done(o, a, b, s, t, n) && i < a
    ensures n.Target(P(AppId(0, i), 2)) == if i == a - 1 then SecondHead(b, s, t) else P(AppId(0, i + 1), 1)
  {
    hide Setting, Leads, Mates, AddNet, Contracted, Sound, SecondHead, Wiring, NewPort, Numeral, Fragment, Lambdas, Done;
    DoneIs(o, a, b, s, t, n);
    var gone := Mates(s, t).Keys;
    Facts(o, a, b, s, t, gone, n);
    NetOf(o, a, b, s, t, gone, n);
    Sizes(o, a, b, s, t);
    AppsInside(o, a, b, s, t);
    StillCon(o, a, b, s, t, n, AppId(0, i));
    AppWire(0, a, i);
    NumeralWire(o, 0, a, P(AppId(0, i), 2));
    if i == a - 1 {
      SecondThread(o, a, b, s, t, n);
      Through(o, s, t, P(AppId(0, i), 2), P(1, 1), P(t + 7, 2), SecondHead(b, s, t));
      EndIs(o, a, b, s, t, n, P(AppId(0, i), 2), SecondHead(b, s, t));
    } else {
      Plain(o, a, b, s, t, gone, n, P(AppId(0, i), 2), P(AppId(0, i + 1), 1));
    }
  }

  /** Those of the second one. */
  lemma SecondApps(o: Net, a: nat, b: nat, s: AgentId, t: AgentId, n: Net, i: nat)
    requires Done(o, a, b, s, t, n) && i < b
    ensures n.Target(P(AppId(s, i), 2)) == if i == b - 1 then P(t + 3, 1) else P(AppId(s, i + 1), 1)
  {
    hide Setting, Leads, Mates, AddNet, Contracted, Sound, Wiring, NewPort, Numeral, Fragment, Lambdas, Done;
    DoneIs(o, a, b, s, t, n);
    var gone := Mates(s, t).Keys;
    Facts(o, a, b, s, t, gone, n);
    NetOf(o, a, b, s, t, gone, n);
    Sizes(o, a, b, s, t);
    AppsInside(o, a, b, s, t);
    StillCon(o, a, b, s, t, n, AppId(s, i));
    AppWire(s, b, i);
    NumeralWire(o, s, b, P(AppId(s, i), 2));
    if i == b - 1 {
      SecondThread(o, a, b, s, t, n);
      Through(o, s, t, P(AppId(s, i), 2), P(s + 1, 1), P(t + 6, 2), P(t + 3, 1));
      EndIs(o, a, b, s, t, n, P(AppId(s, i), 2), P(t + 3, 1));
    } else {
      Plain(o, a, b, s, t, gone, n, P(AppId(s, i), 2), P(AppId(s, i + 1), 1));
    }
  }

  /** The two lambdas that remain. */
  lemma LambdasLeft(o: Net, a: nat, b: nat, s: AgentId, t: AgentId, n: Net)
    requires Done(o, a, b, s, t, n)
    ensures Has(n, t + 2, Con) && Has(n, t + 3, Con)
    ensures n.Target(P(t + 2, 0)) == FreePort(0) && n.Target(P(t + 2, 1)) == P(t + 8, 0) && n.Target(P(t + 2, 2)) == P(t + 3, 0)
    ensures n.Target(P(t + 3, 2)) == FirstHead(a, b, s, t) && n.Target(P(t + 3, 1)).AgentPort?
  {
    hide Setting, Leads, Mates, AddNet, Contracted, Sound, FirstHead;
    var gone := Mates(s, t).Keys;
    Facts(o, a, b, s, t, gone, n);
    NetOf(o, a, b, s, t, gone, n);
    StillCon(o, a, b, s, t, n, t + 2);
    StillCon(o, a, b, s, t, n, t + 3);
    MateAt(s, t, t + 1);
    RestPrincipal(o, a, b, s, t, gone, n);
    Plain(o, a, b, s, t, gone, n, P(t + 2, 1), P(t + 8, 0));
    Plain(o, a, b, s, t, gone, n, P(t + 2, 2), P(t + 3, 0));
    FirstThread(o, a, b, s, t, n);
    EndIs(o, a, b, s, t, n, P(t + 3, 2), FirstHead(a, b, s, t));
    VariableWired(o, a, b, s, t, n);
  }

  lemma VariableWired(o: Net, a: nat, b: nat, s: AgentId, t: AgentId, n: Net)
    requires Done(o, a, b, s, t, n)
    ensures n.Target(P(t + 3, 1)).AgentPort?
  {
    hide Setting, Leads, Mates, AddNet, Contracted, Sound;
    var gone := Mates(s, t).Keys;
    Facts(o, a, b, s, t, gone, n);
    NetOf(o, a, b, s, t, gone, n);
    StillCon(o, a, b, s, t, n, t + 3);
    FirstThread(o, a, b, s, t, n);
    EndIs(o, a, b, s, t, n, P(t + 3, 2), FirstHead(a, b, s, t));
    if a == 0 && b == 0 {
      Mirrored(n, P(t + 3, 2), P(t + 3, 1));
    } else if b == 0 {
      FirstApps(o, a, b, s, t, n, a - 1);
      StillCon(o, a, b, s, t, n, AppId(0, a - 1));
      Mirrored(n, P(AppId(0, a - 1), 2), P(t + 3, 1));
    } else {
      SecondApps(o, a, b, s, t, n, b - 1);
      StillCon(o, a, b, s, t, n, AppId(s, b - 1));
      Mirrored(n, P(AppId(s, b - 1), 2), P(t + 3, 1));
    }
  }

  lemma Mirrored(n: Net, p: PortRef, q: PortRef)
    requires Sound(n) && n.IsPort(p) && n.Target(p) == q && q.AgentPort?
    ensures n.Target(q) == p
  {}

  // ----------------------------------------------------------------- finding and decoding it

  /** The applications of the result, from the outermost on. */
  function Chained(a: nat, b: nat, s: AgentId): (ids: seq<AgentId>)
    ensures |ids| == a + b
  {
    seq(a + b, i requires 0 <= i => if i < a then AppId(0, i) else AppId(s, i - a))
  }

  /** The net with its root found. */
  function Rooted(n: Net, x: AgentId): Net {
    Disconnect(n, P(x, 0)).(root := Some(P(x, 0)))
  }

  lemma RootedSame(n: Net, x: AgentId, q: PortRef)
    requires n.Target(P(x, 0)).FreePort? && q != P(x, 0)
    ensures Rooted(n, x).Target(q) == n.Target(q)
    ensures Rooted(n, x).agents == n.agents && Rooted(n, x).redexes == n.redexes && Rooted(n, x).root == Some(P(x, 0))
  {}

  /** Where the walk is after its first `i` applications. */
  lemma WalkAt(o: Net, a: nat, b: nat, s: AgentId, t: AgentId, n: Net, i: nat)
    requires Done(o, a, b, s, t, n) && i <= a + b
    ensures var ids := Chained(a, b, s);
      D.Reached(Rooted(n, t + 2), FirstHead(a, b, s, t), ids[..i]) == if i == a + b then P(t + 3, 1) else P(ids[i], 1)
  {
    hide Done;
    LambdasLeft(o, a, b, s, t, n);
    var ids := Chained(a, b, s);
    if i > 0 {
      var x := ids[i - 1];
      assert ids[..i][|ids[..i]| - 1] == x;
      StillThere(o, a, b, s, t, n, i - 1);
      RootedSame(n, t + 2, P(x, 2));
      if i - 1 < a { FirstApps(o, a, b, s, t, n, i - 1); } else { SecondApps(o, a, b, s, t, n, i - 1 - a); }
    }
  }

  lemma StillThere(o: Net, a: nat, b: nat, s: AgentId, t: AgentId, n: Net, i: nat)
    requires Done(o, a, b, s, t, n) && i < a + b
    ensures var x := Chained(a, b, s)[i]; Has(n, x, Con) && x != t + 2 && x != t + 3
  {
    hide Setting, AddNet, Contracted, Sound, Mates;
    NetOf(o, a, b, s, t, Mates(s, t).Keys, n);
    AppsInside(o, a, b, s, t);
    StillCon(o, a, b, s, t, n, Chained(a, b, s)[i]);
    Facts(o, a, b, s, t, Mates(s, t).Keys, n);
  }

  lemma SumWalks(o: Net, a: nat, b: nat, s: AgentId, t: AgentId, n: Net)
    requires Done(o, a, b, s, t, n) && n.redexes == []
    ensures D.DecodesAs(Rooted(n, t + 2), a + b, t + 2, t + 3, Chained(a, b, s))
  {
    hide Done, Rooted, FirstHead, D.Reached, Chained;
    LambdasLeft(o, a, b, s, t, n);
    var m, ids := Rooted(n, t + 2), Chained(a, b, s);
    RootedSame(n, t + 2, P(t + 2, 1));
    RootedSame(n, t + 2, P(t + 2, 2));
    RootedSame(n, t + 2, P(t + 3, 1));
    RootedSame(n, t + 2, P(t + 3, 2));
    forall i | 0 <= i < |ids|
      ensures D.Reached(m, m.Target(P(t + 3, 2)), ids[..i]) == P(ids[i], 1) && ids[i] != t + 3 && Has(m, ids[i], Con)
    {
      WalkAt(o, a, b, s, t, n, i);
      StillThere(o, a, b, s, t, n, i);
    }
    WalkAt(o, a, b, s, t, n, a + b);
    assert ids[..a + b] == ids;
  }

  /** The result decodes to the sum. */
  lemma SumDecodes(o: Net, a: nat, b: nat, s: AgentId, t: AgentId, n: Net)
    requires Done(o, a, b, s, t, n) && n.redexes == []
    ensures D.DecodesTo(Rooted(n, t + 2), a + b)
  {
    hide Done, Rooted, D.DecodesAs;
    SumWalks(o, a, b, s, t, n);
  }

  /** No other constructor is open or labelled. */
  lemma OthersWired(o: Net, a: nat, b: nat, s: AgentId, t: AgentId, n: Net, x: AgentId)
    requires Done(o, a, b, s, t, n) && x in n.agents && x != t + 2
    ensures n.Target(P(x, 0)).AgentPort?
  {
    hide Setting, Lambdas, Fragment, AddNet, Contracted, Sound, Mates;
    var gone := Mates(s, t).Keys;
    Facts(o, a, b, s, t, gone, n);
    NetOf(o, a, b, s, t, gone, n);
    Within(o, a, b, s, t, gone, n, x);
    ContractedAgents(o, Mates(s, t), gone, n);
    MateAt(s, t, x);
    RestPrincipal(o, a, b, s, t, gone, n);
    if 2 <= x < s || s + 2 <= x < t { NumeralPrincipal(o, a, b, s, t, gone, n, x); }
  }

  // --------------------------------------------------------------------- what it denotes

  /** Where a numeral starts, how large it is, and which copy of f it gets. */
  function Base(second: bool, s: AgentId): AgentId { if second then s else 0 }
  function Count(second: bool, a: nat, b: nat): nat { if second then b else a }
  function Share(second: bool): nat { if second then 2 else 1 }

  /** A wire inside a numeral, or from it to its copy of f. */
  lemma NumeralEnd(o: Net, a: nat, b: nat, s: AgentId, t: AgentId, n: Net, second: bool, x: AgentId)
    requires Done(o, a, b, s, t, n)
    requires var base, k := Base(second, s), Count(second, a, b); base + 2 <= x < base + ChurchSize(k)
    ensures var base, k := Base(second, s), Count(second, a, b);
      var u := Wiring(base, k, P(x, 0));
      x in n.agents && n.agents[x] == KindOf(base, k, x) && n.Target(P(x, 0)) == if u == P(base, 1) then P(t + 8, Share(second)) else u
  {
    hide Setting, Wiring, AddNet, Contracted, Sound, Numeral, Fragment, Lambdas, Mates, Mate;
    var gone := Mates(s, t).Keys;
    Facts(o, a, b, s, t, gone, n);
    NetOf(o, a, b, s, t, gone, n);
    Sizes(o, a, b, s, t);
    MateAt(s, t, 0);
    MateAt(s, t, s);
    BasesMate(s, t);
    if second { SecondPrincipal(o, a, b, s, t, gone, n, x); } else { FirstPrincipal(o, a, b, s, t, gone, n, x); }
  }

  lemma BasesMate(s: AgentId, t: AgentId)
    ensures Mate(s, t, 0).Some? && Mate(s, t, s).Some?
  {}

  lemma NumeralKind(o: Net, base: AgentId, k: nat, x: AgentId)
    requires Numeral(o, base, k) && base <= x < base + ChurchSize(k)
    ensures x in o.agents && o.agents[x] == KindOf(base, k, x)
  {}

  ghost predicate ReadsOuter(n: Net, f: AgentId, x: AgentId, q: PortRef) {
    exists t :: Reads(n, {f, x}, q, t) && TermOf(t, [x, f]) == Lambda.V(1)
  }

  /** A copy of f reads as f. */
  lemma ShareReads(o: Net, a: nat, b: nat, s: AgentId, t: AgentId, n: Net, j: nat)
    requires Done(o, a, b, s, t, n) && 1 <= j <= 2
    ensures ReadsOuter(Rooted(n, t + 2), t + 2, t + 3, P(t + 8, j))
  {
    hide Setting, Mates, FirstHead;
    LambdasLeft(o, a, b, s, t, n);
    RestPrincipal(o, a, b, s, t, Mates(s, t).Keys, n);
    SharedDup(o, a, b, s, t, n);
    hide Done;
    var m := Rooted(n, t + 2);
    RootedSame(n, t + 2, P(t + 8, 0));
    hide Rooted;
    var tree := Copy(t + 8, Var(t + 2));
    assert Reads(m, {t + 2, t + 3}, P(t + 2, 1), Var(t + 2));
    assert Reads(m, {t + 2, t + 3}, P(t + 8, j), tree);
    assert Depth([t + 3, t + 2], t + 2) == 1 by { assert [t + 3, t + 2][1..] == [t + 2]; }
    assert TermOf(tree, [t + 3, t + 2]) == Lambda.V(1);
  }

  lemma SharedDup(o: Net, a: nat, b: nat, s: AgentId, t: AgentId, n: Net)
    requires Done(o, a, b, s, t, n)
    ensures Has(n, t + 8, Dup)
  {
    hide Setting, Mates, Contracted, Sound, Fragment, Numeral;
    Facts(o, a, b, s, t, Mates(s, t).Keys, n);
    NetOf(o, a, b, s, t, Mates(s, t).Keys, n);
    Stay(o, a, b, s, t, Mates(s, t).Keys, n, t + 8);
  }

  lemma CopyReads(n: Net, f: AgentId, x: AgentId, d: AgentId, j: nat)
    requires Has(n, d, Dup) && 1 <= j <= 2 && ReadsOuter(n, f, x, n.Target(P(d, 0)))
    ensures ReadsOuter(n, f, x, P(d, j))
  {
    var t :| Reads(n, {f, x}, n.Target(P(d, 0)), t) && TermOf(t, [x, f]) == Lambda.V(1);
    assert Reads(n, {f, x}, P(d, j), Copy(d, t)) && TermOf(Copy(d, t), [x, f]) == Lambda.V(1);
  }

  lemma DupWire(base: AgentId, k: nat, i: nat)
    requires k >= 2 && i < k - 1
    ensures base + 2 <= DupId(base, k, i) < base + ChurchSize(k) && KindOf(base, k, DupId(base, k, i)) == Dup
    ensures Wiring(base, k, P(DupId(base, k, i), 0)) == if i == 0 then P(base, 1) else P(DupId(base, k, i - 1), 2)
  {}

  /** So do the duplicators of a numeral. */
  lemma {:induction false} DupReads(o: Net, a: nat, b: nat, s: AgentId, t: AgentId, n: Net, second: bool, i: nat, j: nat)
    requires Done(o, a, b, s, t, n) && 1 <= j <= 2 && Count(second, a, b) >= 2 && i < Count(second, a, b) - 1
    ensures ReadsOuter(Rooted(n, t + 2), t + 2, t + 3, P(DupId(Base(second, s), Count(second, a, b), i), j))
    decreases i
  {
    hide Done, ReadsOuter, Rooted, Wiring, Base, Count, Share, FirstHead;
    var base, k := Base(second, s), Count(second, a, b);
    var d, m := DupId(base, k, i), Rooted(n, t + 2);
    DupWire(base, k, i);
    NumeralEnd(o, a, b, s, t, n, second, d);
    LambdasLeft(o, a, b, s, t, n);
    InsideNumeral(o, a, b, s, t, n, second, d);
    RootedSame(n, t + 2, P(d, 0));
    if i == 0 {
      ShareIs(second);
      ShareReads(o, a, b, s, t, n, Share(second));
    } else {
      NotBase(base, k, i);
      DupReads(o, a, b, s, t, n, second, i - 1, 2);
    }
    CopyReads(m, t + 2, t + 3, d, j);
  }

  lemma ShareIs(second: bool)
    ensures 1 <= Share(second) <= 2
  {}

  lemma NotBase(base: AgentId, k: nat, i: nat)
    requires i > 0
    ensures P(DupId(base, k, i - 1), 2) != P(base, 1)
  {}

  lemma InsideNumeral(o: Net, a: nat, b: nat, s: AgentId, t: AgentId, n: Net, second: bool, x: AgentId)
    requires Done(o, a, b, s, t, n)
    requires var base, k := Base(second, s), Count(second, a, b); base + 2 <= x < base + ChurchSize(k)
    ensures x < t
  {
    hide Setting, Contracted, Sound, Mates, Fragment, Numeral, AddNet;
    NetOf(o, a, b, s, t, Mates(s, t).Keys, n);
    Sizes(o, a, b, s, t);
  }

  lemma AppHead(base: AgentId, k: nat, i: nat)
    requires i < k
    ensures base + 2 <= AppId(base, i) < base + ChurchSize(k)
    ensures Wiring(base, k, P(AppId(base, i), 0)) == FunctionEnd(base, k, i)
    ensures k == 1 ==> FunctionEnd(base, k, i) == P(base, 1)
    ensures k >= 2 ==> FunctionEnd(base, k, i) != P(base, 1)
  {}

  /** Every application of a numeral applies f. */
  lemma AppliesOuter(o: Net, a: nat, b: nat, s: AgentId, t: AgentId, n: Net, second: bool, i: nat)
    requires Done(o, a, b, s, t, n) && i < Count(second, a, b)
    ensures var m := Rooted(n, t + 2); ReadsOuter(m, t + 2, t + 3, m.Target(P(AppId(Base(second, s), i), 0)))
  {
    hide Done, ReadsOuter, Rooted, Wiring, Base, Count, Share, FirstHead;
    var base, k := Base(second, s), Count(second, a, b);
    var x := AppId(base, i);
    AppHead(base, k, i);
    NumeralEnd(o, a, b, s, t, n, second, x);
    LambdasLeft(o, a, b, s, t, n);
    InsideNumeral(o, a, b, s, t, n, second, x);
    RootedSame(n, t + 2, P(x, 0));
    if k == 1 {
      ShareIs(second);
      ShareReads(o, a, b, s, t, n, Share(second));
    } else {
      DupReads(o, a, b, s, t, n, second, if i < k - 1 then i else k - 2, if i < k - 1 then 1 else 2);
    }
  }

  /** The result is the numeral of the sum, not just a net that decodes to it. */
  lemma SumDenotes(o: Net, a: nat, b: nat, s: AgentId, t: AgentId, n: Net)
    requires Done(o, a, b, s, t, n) && n.redexes == []
    ensures Denotes(Rooted(n, t + 2), P(t + 2, 0), Lambda.Church(a + b))
  {
    hide Done, Rooted, FirstHead, ReadsOuter, Denotes, Lambda.Church, D.Reached;
    var m, ids := Rooted(n, t + 2), Chained(a, b, s);
    SumWalks(o, a, b, s, t, n);
    forall i | 0 <= i < |ids| ensures E.IsFunction(m, t + 2, t + 3, m.Target(P(ids[i], 0))) {
      AppliesOuter(o, a, b, s, t, n, i >= a, if i < a then i else i - a);
      OuterIsFunction(m, t + 2, t + 3, m.Target(P(ids[i], 0)));
    }
    E.DecodeExact(m, a + b, t + 2, t + 3, ids);
  }

  lemma OuterIsFunction(n: Net, f: AgentId, x: AgentId, q: PortRef)
    requires ReadsOuter(n, f, x, q)
    ensures E.IsFunction(n, f, x, q)
  {}

  /** discover_root finds the lambda of f. */
  lemma SumRoot(o: Net, a: nat, b: nat, s: AgentId, t: AgentId, n: Net)
    requires Done(o, a, b, s, t, n)
    ensures Root.Root(n) == Root.Labelled(t + 2)
  {
    hide Done, Setting, AddNet, Contracted, Sound, Mates, Root.Root, FirstHead;
    LambdasLeft(o, a, b, s, t, n);
    DoneIs(o, a, b, s, t, n);
    NetOf(o, a, b, s, t, Mates(s, t).Keys, n);
    SoundArena(n, t + 2);
    forall x: AgentId | x < t + 2 ensures !Root.IsLabelled(n, x) && !Root.IsOpen(n, x) {
      if x in n.agents { OthersWired(o, a, b, s, t, n, x); }
    }
    assert Root.OpenBelow(n, t + 2) == {};
    Root.RootExact(n, Root.Labelled(t + 2));
  }

  lemma SoundArena(n: Net, x: AgentId)
    requires Sound(n) && x in n.agents
    ensures x < n.arena
  {}

  // ------------------------------------------------------------------------- the pipeline

  /** A built net has no port wired to itself. */
  lemma NumeralNoSelf(base: AgentId, k: nat, q: PortRef)
    requires NewPort(base, k, q) && q != P(base, 0)
    ensures Wiring(base, k, q) != q
  {}

  lemma FragmentNoSelf(o: Net, s: AgentId, t: AgentId, x: AgentId, j: nat)
    requires Fragment(o, s, t) && 3 <= s && s + 3 <= t && t <= x < t + 11 && j <= 2
    ensures o.Target(P(x, j)) != P(x, j)
  {
  }

  lemma BuiltSound(a: nat, b: nat)
    ensures Sound(A.BinaryNet(G.Add, a, b))
  {
    var o, s := A.BinaryNet(G.Add, a, b), ChurchSize(a);
    var t := s + ChurchSize(b);
    hide A.BinaryNet, A.Output, Denotes, AddNet, Fragment, Numeral, Wiring, NewPort, Net.WellFormed;
    BuiltIsAdd(a, b);
    Sizes(o, a, b, s, t);
    A.BinaryMeaning(G.Add, a, b);
    forall p | o.IsPort(p) ensures o.Target(p) != p {
      assert p == P(p.id, p.port);
      if p.id >= t {
        FragmentNoSelf(o, s, t, p.id, p.port);
      } else {
        RootWires(o, s, t);
        var base, k := if p.id < s then 0 else s, if p.id < s then a else b;
        if p != P(base, 0) {
          PortOf(o, base, k, p);
          NumeralWire(o, base, k, p);
          NumeralNoSelf(base, k, p);
        }
      }
    }
  }

  lemma RootWires(o: Net, s: AgentId, t: AgentId)
    requires Fragment(o, s, t)
    ensures o.Target(P(0, 0)) == P(t + 9, 2) && o.Target(P(s, 0)) == P(t + 10, 2)
  {}

  lemma PortOf(o: Net, base: AgentId, k: nat, p: PortRef)
    requires Numeral(o, base, k) && o.IsPort(p) && base <= p.id < base + ChurchSize(k)
    ensures NewPort(base, k, p)
  {}

  /** The allocator and the queue of a built net. */
  lemma BuiltFrame(a: nat, b: nat)
    ensures var o, t := A.BinaryNet(G.Add, a, b), ChurchSize(a) + ChurchSize(b);
      && o.freeList == [] && o.redexes == [(t + 9, t)] && o.nextId == t + 11
      && (forall id :: id in o.agents ==> id < o.nextId && id < o.arena)
      && (forall x: AgentId :: x >= t + 11 ==> o.Target(P(x, 0)) == DISCONNECTED)
  {
    hide Encode, G.Install, Net.WellFormed, Wiring, ChurchSyms, NewPort, CreateAll;
    var one := Encode(EMPTY, a);
    var both := Encode(one, b);
    A.EmptyGrows();
    EncodeFrame(EMPTY, a);
    EncodeFrame(one, b);
    A.OperandsReady(a, b);
    BothAgents(a, b);
    var s := one.nextId;
    var whole := G.Install(both, G.Add, P(0, 0), P(s, 0));
    G.InstallWires(both, G.Add, P(0, 0), P(s, 0));
    G.InstallRedex(both, G.Add, P(0, 0), P(s, 0));
    CreateAllAdds(both, G.Syms(G.Add));
    assert whole.nextId == both.nextId + 11 by { InstalledNext(both, s, whole); }
    InstalledAgents(both, s, whole);
    hide G.Installed, Growing;
    FrameOf(both, s, whole);
  }

  lemma InstalledNext(n: Net, s: AgentId, r: Net)
    requires G.Installed(n, G.Add, P(0, 0), P(s, 0), r)
    ensures r.nextId == n.nextId + 11 && r.freeList == n.freeList && Growing(r)
  {
    hide G.JointAt, Linked, Growing;
    assert |G.Syms(G.Add)| == 11;
  }

  lemma FrameOf(n: Net, s: AgentId, r: Net)
    requires G.Installed(n, G.Add, P(0, 0), P(s, 0), r)
    ensures r.freeList == n.freeList && (forall id :: id in r.agents ==> id < r.nextId && id < r.arena)
    ensures forall q :: q in r.ports ==> q.AgentPort? && q.id < r.nextId
  {
    InstalledNext(n, s, r);
    hide G.Installed;
  }

  lemma BuiltAlloc(a: nat, b: nat)
    ensures AllocOk(A.BinaryNet(G.Add, a, b)) && DeadPrincipals(A.BinaryNet(G.Add, a, b))
  {
    hide A.BinaryNet, AddNet, Fragment, Numeral, ChurchSize;
    BuiltFrame(a, b);
    BuiltIsAdd(a, b);
    var o := A.BinaryNet(G.Add, a, b);
    Sizes(o, a, b, ChurchSize(a), ChurchSize(a) + ChurchSize(b));
    forall x | x !in o.agents ensures o.Target(AgentPort(x, 0)) == DISCONNECTED { assert AgentPort(x, 0) == P(x, 0); }
  }

  lemma BuiltGood(a: nat, b: nat)
    ensures Good(A.BinaryNet(G.Add, a, b))
  {
    var o, s := A.BinaryNet(G.Add, a, b), ChurchSize(a);
    var t := s + ChurchSize(b);
    hide A.BinaryNet, AddNet, Sound, AllocOk, DeadPrincipals, Fragment, Numeral, Contracted, Mates;
    BuiltIsAdd(a, b);
    BuiltSound(a, b);
    BuiltAlloc(a, b);
    BuiltFrame(a, b);
    ContractedStart(o, Mates(s, t));
    forall x, y | Faces(o, x, y) ensures Queued(o, x, y) {
      assert Setting(o, a, b, s, t, {}, o);
      OnlyCouples(o, a, b, s, t, {}, o, x, y);
      FirstCouple(o, a, b, s, t, x, y);
    }
  }

  /** At the start only the outermost lambda meets its argument. */
  lemma FirstCouple(o: Net, a: nat, b: nat, s: AgentId, t: AgentId, x: AgentId, y: AgentId)
    requires Setting(o, a, b, s, t, {}, o) && Mate(s, t, x) == Some(y) && Faces(o, x, y)
    ensures (x == t && y == t + 9) || (x == t + 9 && y == t)
  {
    hide Setting, Lambdas, Fragment;
    Facts(o, a, b, s, t, {}, o);
    CoupleN(o, a, b, s, t, {}, o);
    CoupleMf(o, a, b, s, t, {}, o);
    CoupleNf(o, a, b, s, t, {}, o);
    CoupleAll(o, a, b, s, t, {}, o);
    CoupleNfx(o, a, b, s, t, {}, o);
  }

  lemma SameDone(o: Net, a: nat, b: nat, s: AgentId, t: AgentId, n: Net, m: Net)
    requires Done(o, a, b, s, t, n) && SameButQueue(n, m)
    ensures Done(o, a, b, s, t, m)
  {
    hide AddNet, Mates, Leads;
    assert forall p :: m.Target(p) == n.Target(p);
    assert forall p :: m.IsPort(p) <==> n.IsPort(p);
  }

  /** In whatever order the addition net is reduced, it takes six interactions to a normal
      form, and that is the numeral of the sum. */
  lemma AddAnyOrder(a: nat, b: nat, run: seq<Move>)
    requires Legal(A.BinaryNet(G.Add, a, b), run)
    ensures |run| <= 6 && (R.IsNormalForm(After(A.BinaryNet(G.Add, a, b), run)) <==> |run| == 6)
    ensures |run| == 6 ==>
      var n := After(A.BinaryNet(G.Add, a, b), run);
      && Root.Root(n).Labelled?
      && Denotes(Rooted(n.(redexes := []), Root.Root(n).id), P(Root.Root(n).id, 0), Lambda.Church(a + b))
  {
    var o, s := A.BinaryNet(G.Add, a, b), ChurchSize(a);
    var t := s + ChurchSize(b);
    hide A.BinaryNet, AddNet, Sound, AllocOk, DeadPrincipals, Done, Rooted, Root.Root, Denotes, Lambda.Church, Legal, After, R.IsNormalForm, Mates, Setting;
    BuiltIsAdd(a, b);
    BuiltSound(a, b);
    BuiltAlloc(a, b);
    AddRuns(o, a, b, s, t, run);
    if |run| == 6 {
      var n := After(o, run);
      DoneBy(o, a, b, s, t, n);
      SumRoot(o, a, b, s, t, n);
      SameDone(o, a, b, s, t, n, n.(redexes := []));
      SumDenotes(o, a, b, s, t, n.(redexes := []));
    }
  }

  /** The reduction loop on the addition net: six interactions, and what is left decodes to
      the sum once its root is found. */
  lemma AddPipeline(a: nat, b: nat, budget: nat)
    requires budget > 6
    ensures var (m, st) := R.AdvanceN(A.BinaryNet(G.Add, a, b), R.Stats(0, 0, 0, 0, 0), budget);
      && st.total == 6 && Root.Root(m).Labelled? && D.DecodesTo(Rooted(m, Root.Root(m).id), a + b)
      && Denotes(Rooted(m, Root.Root(m).id), P(Root.Root(m).id, 0), Lambda.Church(a + b))
      && Rooted(m, Root.Root(m).id).WellFormed()
  {
    var o, s := A.BinaryNet(G.Add, a, b), ChurchSize(a);
    var t := s + ChurchSize(b);
    hide A.BinaryNet, AddNet, Good, R.AdvanceN, Done, Rooted, Root.Root, D.DecodesTo, Denotes, Lambda.Church, Legal, After, R.IsNormalForm, SameButQueue, Safe, Mates, Clear;
    BuiltIsAdd(a, b);
    BuiltGood(a, b);
    BuiltSound(a, b);
    BuiltAlloc(a, b);
    AddSafe(o, a, b, s, t);
    hide Sound, AllocOk, DeadPrincipals;
    SafeClear(o, Mates(s, t));
    var (m, st) := R.AdvanceN(o, R.Stats(0, 0, 0, 0, 0), budget);
    var run := LoopRuns(o, R.Stats(0, 0, 0, 0, 0), budget);
    AddRuns(o, a, b, s, t, run);
    R.AdvanceNDone(o, R.Stats(0, 0, 0, 0, 0), budget);
    DoneBy(o, a, b, s, t, After(o, run));
    SameDone(o, a, b, s, t, After(o, run), m);
    SumRoot(o, a, b, s, t, m);
    SumDecodes(o, a, b, s, t, m);
    SumDenotes(o, a, b, s, t, m);
    RootedFormed(o, a, b, s, t, m);
  }

  lemma DoneBy(o: Net, a: nat, b: nat, s: AgentId, t: AgentId, n: Net)
    requires Setting(o, a, b, s, t, Mates(s, t).Keys, n)
    ensures Done(o, a, b, s, t, n)
  {}

  lemma RootedFormed(o: Net, a: nat, b: nat, s: AgentId, t: AgentId, n: Net)
    requires Done(o, a, b, s, t, n)
    ensures Rooted(n, t + 2).WellFormed()
  {
    hide Done, Setting, AddNet, Contracted, Mates, FirstHead;
    LambdasLeft(o, a, b, s, t, n);
    DoneIs(o, a, b, s, t, n);
    NetOf(o, a, b, s, t, Mates(s, t).Keys, n);
    var m := Rooted(n, t + 2);
    assert m.agents == n.agents && m.arena == n.arena;
    forall p | m.IsPort(p) && m.Target(p).AgentPort? ensures m.IsPort(m.Target(p)) && m.Target(m.Target(p)) == p {
      assert p != P(t + 2, 0);
      assert m.Target(p) == n.Target(p) && n.Target(n.Target(p)) == p;
    }
  }

  /** compute_arithmetic on build_add: build, reduce, find the root, decode. Any budget above
      six serves; the source has none. */
  method ComputeAdd(a: nat, b: nat, budget: nat) returns (r: Option<nat>)
    requires a <= MAX_CHURCH && b <= MAX_CHURCH && budget > 6
    ensures r == Some(a + b)
  {
    hide A.BinaryNet, R.AdvanceN, Root.Root, D.DecodesTo, Net.WellFormed, Disconnect;
    var cell := A.BuildAdd(a, b);
    var stats := cell.ReduceN(budget);
    AddPipeline(a, b, budget);
    var found := Root.DiscoverRoot(cell);
    r := D.DecodeNat(cell.net);
  }
}
