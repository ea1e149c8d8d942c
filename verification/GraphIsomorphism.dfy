/** The checker that treats interface names as anonymous: one agent bijection is
    searched with the names ignored, then the renaming it implies is verified. */
module NetGraphIsomorphism {
  import opened Nets
  import opened Ordering
  import opened Backtracking
  import opened NetIsomorphism

  /** `p` is a port whose wire leaves the net. */
  predicate OnInterface(n: Net, p: PortRef) {
    n.IsPort(p) && n.Target(p).FreePort? && n.Target(p) != DISCONNECTED
  }

  ghost function Names(n: Net): set<nat> {
    set id, p | id in n.agents && p in {0, 1, 2} && OnInterface(n, AgentPort(id, p)) ::
      n.Target(AgentPort(id, p)).name
  }

  /** Each interface name occurs on one port. */
  ghost predicate UniqueNames(n: Net) {
    forall p, q :: OnInterface(n, p) && OnInterface(n, q) && n.Target(p) == n.Target(q) ==> p == q
  }

  function Relabel(f: Mapping, h: map<nat, nat>, r: PortRef): PortRef {
    if r.FreePort? && r.name in h then FreePort(h[r.name]) else MapPort(f, r)
  }

  /** An agent bijection and a bijection of interface names that keep every wire. */
  ghost predicate GraphIsomorphism(a: Net, b: Net, f: Mapping, h: map<nat, nat>) {
    && AgentBijection(a, b, f)
    && Injective(h) && h.Keys == Names(a) && h.Values == Names(b)
    && forall p :: a.IsPort(p) ==> b.Target(MapPort(f, p)) == Relabel(f, h, a.Target(p))
  }

  ghost predicate GraphIsomorphic(a: Net, b: Net) {
    exists f, h :: GraphIsomorphism(a, b, f, h)
  }

  /** Ports of `a` share a name exactly when the corresponding ports of `b` do. */
  ghost predicate NamesCorrespond(a: Net, b: Net, f: Mapping) {
    forall p, q :: OnInterface(a, p) && OnInterface(a, q) ==>
      (a.Target(p) == a.Target(q) <==> b.Target(MapPort(f, p)) == b.Target(MapPort(f, q)))
  }

  /** What pass 1 guarantees about the bijection it found. */
  ghost predicate Relaxed(a: Net, b: Net, f: Mapping) {
    && AgentBijection(a, b, f)
    && forall p :: a.IsPort(p) ==>
      EndAgrees(f, a.Target(p), b.Target(MapPort(f, p)), false)
  }

  // ------------------------------------------------------------------------ the second pass

  /** The name pair of every port in `seen` is in both tables. */
  ghost predicate Recorded(a: Net, b: Net, f: Mapping, seen: set<PortRef>, fwd: map<nat, nat>, rev: map<nat, nat>) {
    forall p :: p in seen && OnInterface(a, p) ==>
      && b.Target(MapPort(f, p)).FreePort?
      && var k, l := a.Target(p).name, b.Target(MapPort(f, p)).name;
         k in fwd && fwd[k] == l && l in rev && rev[l] == k
  }

  ghost predicate Justified(a: Net, b: Net, f: Mapping, seen: set<PortRef>, k: nat, l: nat) {
    exists p :: p in seen && OnInterface(a, p) && a.Target(p) == FreePort(k) && b.Target(MapPort(f, p)) == FreePort(l)
  }

  /** The tables hold exactly the name pairs of the ports in `seen`. */
  ghost predicate Tables(a: Net, b: Net, f: Mapping, seen: set<PortRef>, fwd: map<nat, nat>, rev: map<nat, nat>) {
    && Recorded(a, b, f, seen, fwd, rev)
    && (forall k :: k in fwd ==> Justified(a, b, f, seen, k, fwd[k]))
    && (forall l :: l in rev ==> Justified(a, b, f, seen, rev[l], l))
  }

  ghost predicate Conflict(a: Net, b: Net, f: Mapping, p: PortRef, q: PortRef) {
    && OnInterface(a, p) && OnInterface(a, q)
    && (a.Target(p) == a.Target(q)) != (b.Target(MapPort(f, p)) == b.Target(MapPort(f, q)))
  }

  /** One port of the second pass. */
  method RecordPort(a: Net, b: Net, f: Mapping, p: PortRef, ghost seen: set<PortRef>,
                    fwd: map<nat, nat>, rev: map<nat, nat>)
    returns (ok: bool, fwd': map<nat, nat>, rev': map<nat, nat>)
    requires Relaxed(a, b, f) && a.IsPort(p) && Tables(a, b, f, seen, fwd, rev)
    ensures ok ==> Tables(a, b, f, seen + {p}, fwd', rev')
    ensures !ok ==> exists q :: Conflict(a, b, f, p, q)
  {
    fwd', rev' := fwd, rev;
    var s, t := a.Target(p), b.Target(MapPort(f, p));
    assert EndAgrees(f, s, t, false);
    if s.FreePort? && t.FreePort? {
      StillJustified(a, b, f, seen, p);
      if s.name == U32_MAX && t.name == U32_MAX { return true, fwd', rev'; }
      if s.name == U32_MAX || t.name == U32_MAX { assert false; }
      if s.name in fwd {
        if fwd[s.name] != t.name {
          ghost var q :| q in seen && OnInterface(a, q) && a.Target(q) == s && b.Target(MapPort(f, q)) == FreePort(fwd[s.name]);
          assert Conflict(a, b, f, p, q);
          return false, fwd', rev';
        }
      } else {
        if t.name in rev {
          ghost var q :| q in seen && OnInterface(a, q) && a.Target(q) == FreePort(rev[t.name]) && b.Target(MapPort(f, q)) == t;
          assert Conflict(a, b, f, p, q);
          return false, fwd', rev';
        }
        fwd', rev' := fwd[s.name := t.name], rev[t.name := s.name];
        assert Justified(a, b, f, seen + {p}, s.name, t.name) by { assert p in seen + {p}; }
        return true, fwd', rev';
      }
    }
    StillJustified(a, b, f, seen, p);
    ok := true;
  }

  lemma StillJustified(a: Net, b: Net, f: Mapping, seen: set<PortRef>, p: PortRef)
    ensures forall k, l :: Justified(a, b, f, seen, k, l) ==> Justified(a, b, f, seen + {p}, k, l)
  {
    forall k, l | Justified(a, b, f, seen, k, l) ensures Justified(a, b, f, seen + {p}, k, l) {
      var q :| q in seen && OnInterface(a, q) && a.Target(q) == FreePort(k) && b.Target(MapPort(f, q)) == FreePort(l);
      assert q in seen + {p};
    }
  }

  /** The second pass: the mapped agents in any order, the ports of each in turn. */
  method DeriveNames(a: Net, b: Net, f: Mapping) returns (ok: bool, fwd: map<nat, nat>)
    requires a.WellFormed() && Relaxed(a, b, f)
    ensures ok ==> GraphIsomorphism(a, b, f, fwd)
    ensures ok <==> NamesCorrespond(a, b, f)
  {
    fwd := map[];
    var rev: map<nat, nat> := map[];
    ghost var seen: set<PortRef> := {};
    var rest := f.Keys;
    while rest != {}
      invariant rest <= f.Keys && Tables(a, b, f, seen, fwd, rev)
      invariant forall p :: a.IsPort(p) && p.id !in rest ==> p in seen
    {
      var x :| x in rest;
      for p := 0 to TotalPorts(a.agents[x])
        invariant Tables(a, b, f, seen, fwd, rev)
        invariant forall q :: a.IsPort(q) && q.id !in rest ==> q in seen
        invariant forall q :: 0 <= q < p ==> AgentPort(x, q) in seen
      {
        assert a.IsPort(AgentPort(x, p));
        ok, fwd, rev := RecordPort(a, b, f, AgentPort(x, p), seen, fwd, rev);
        if !ok { return; }
        seen := seen + {AgentPort(x, p)};
      }
      assert forall q :: a.IsPort(q) && q.id == x ==> q == AgentPort(x, q.port) && q in seen;
      rest := rest - {x};
    }
    ok := true;
    TablesComplete(a, b, f, seen, fwd, rev);
  }

  lemma TablesComplete(a: Net, b: Net, f: Mapping, seen: set<PortRef>, fwd: map<nat, nat>, rev: map<nat, nat>)
    requires a.WellFormed() && Relaxed(a, b, f) && Tables(a, b, f, seen, fwd, rev)
    requires forall p :: a.IsPort(p) ==> p in seen
    ensures GraphIsomorphism(a, b, f, fwd) && NamesCorrespond(a, b, f)
  {
    KeysAreNames(a, b, f, seen, fwd, rev);
    ValuesAreNames(a, b, f, seen, fwd, rev);
    forall p | a.IsPort(p) ensures b.Target(MapPort(f, p)) == Relabel(f, fwd, a.Target(p)) {
      WireRelabelled(a, b, f, seen, fwd, rev, p);
    }
    hide Names, Justified, Tables, Relabel;
    assert NamesCorrespond(a, b, f) by { RecordedCorrespond(a, b, f, seen, fwd, rev); }
  }

  lemma RecordedCorrespond(a: Net, b: Net, f: Mapping, seen: set<PortRef>, fwd: map<nat, nat>, rev: map<nat, nat>)
    requires Tables(a, b, f, seen, fwd, rev) && forall p :: a.IsPort(p) ==> p in seen
    ensures NamesCorrespond(a, b, f)
  {}

  lemma KeysAreNames(a: Net, b: Net, f: Mapping, seen: set<PortRef>, fwd: map<nat, nat>, rev: map<nat, nat>)
    requires Tables(a, b, f, seen, fwd, rev) && forall p :: a.IsPort(p) ==> p in seen
    ensures fwd.Keys == Names(a) && Injective(fwd)
  {
    forall k | k in fwd ensures k in Names(a) && fwd[k] in rev && rev[fwd[k]] == k {
      assert Justified(a, b, f, seen, k, fwd[k]);
      var p :| p in seen && OnInterface(a, p) && a.Target(p) == FreePort(k);
      assert p == AgentPort(p.id, p.port);
    }
  }

  lemma WireRelabelled(a: Net, b: Net, f: Mapping, seen: set<PortRef>, fwd: map<nat, nat>, rev: map<nat, nat>, p: PortRef)
    requires a.WellFormed() && Relaxed(a, b, f) && Tables(a, b, f, seen, fwd, rev)
    requires a.IsPort(p) && p in seen && fwd.Keys == Names(a)
    ensures b.Target(MapPort(f, p)) == Relabel(f, fwd, a.Target(p))
  {
    assert EndAgrees(f, a.Target(p), b.Target(MapPort(f, p)), false);
    if !OnInterface(a, p) { assert U32_MAX !in Names(a); }
  }

  lemma ValuesAreNames(a: Net, b: Net, f: Mapping, seen: set<PortRef>, fwd: map<nat, nat>, rev: map<nat, nat>)
    requires a.WellFormed() && Relaxed(a, b, f) && Tables(a, b, f, seen, fwd, rev)
    requires forall p :: a.IsPort(p) ==> p in seen
    ensures fwd.Values == Names(b)
  {
    forall l | l in fwd.Values ensures l in Names(b) {
      var k :| k in fwd && fwd[k] == l;
      assert Justified(a, b, f, seen, k, l);
      var p :| p in seen && OnInterface(a, p) && a.Target(p) == FreePort(k) && b.Target(MapPort(f, p)) == FreePort(l);
      ImageOnInterface(a, b, f, p);
    }
    forall l | l in Names(b) ensures l in fwd.Values {
      var y, port :| y in b.agents && port in {0, 1, 2} && OnInterface(b, AgentPort(y, port))
        && b.Target(AgentPort(y, port)).name == l;
      var p := Preimage(a, b, f, AgentPort(y, port));
      assert p in seen && fwd[a.Target(p).name] == l;
    }
  }

  lemma ImageOnInterface(a: Net, b: Net, f: Mapping, p: PortRef)
    requires Relaxed(a, b, f) && OnInterface(a, p)
    ensures OnInterface(b, MapPort(f, p)) && b.Target(MapPort(f, p)).name in Names(b)
    ensures MapPort(f, p) == AgentPort(f[p.id], p.port)
  {
    assert EndAgrees(f, a.Target(p), b.Target(MapPort(f, p)), false);
  }

  lemma Preimage(a: Net, b: Net, f: Mapping, q: PortRef) returns (p: PortRef)
    requires Relaxed(a, b, f) && OnInterface(b, q)
    ensures OnInterface(a, p) && MapPort(f, p) == q
  {
    assert q.id in f.Values;
    var x :| x in f && f[x] == q.id;
    p := AgentPort(x, q.port);
    assert a.IsPort(p);
    assert EndAgrees(f, a.Target(p), b.Target(q), false);
  }

  // ------------------------------------------------------------------------------- exactness

  lemma GraphIsRelaxed(a: Net, b: Net, f: Mapping, h: map<nat, nat>)
    requires GraphIsomorphism(a, b, f, h)
    ensures Relaxed(a, b, f)
  {
    forall p | a.IsPort(p) ensures EndAgrees(f, a.Target(p), b.Target(MapPort(f, p)), false) {
      if OnInterface(a, p) {
        assert p == AgentPort(p.id, p.port);
        assert a.Target(p).name in h;
        assert h[a.Target(p).name] in h.Values;
        assert U32_MAX !in Names(b);
      } else {
        assert U32_MAX !in Names(a);
      }
    }
  }

  /** Every way of mapping `a` onto itself that ignores the names keeps apart and together
      the ports that the names keep apart and together. */
  ghost predicate Tolerant(a: Net) {
    forall g :: Relaxed(a, a, g) ==> NamesCorrespond(a, a, g)
  }

  /** Unique names are one way to be tolerant. */
  lemma UniqueIsTolerant(a: Net)
    requires UniqueNames(a)
    ensures Tolerant(a)
  {
    hide Relaxed;
    forall g | Relaxed(a, a, g) ensures NamesCorrespond(a, a, g) {
      forall p, q | OnInterface(a, p) && OnInterface(a, q)
        ensures a.Target(p) == a.Target(q) <==> a.Target(MapPort(g, p)) == a.Target(MapPort(g, q))
      {
        UniqueImages(a, g, p, q);
      }
    }
  }

  lemma UniqueImages(a: Net, g: Mapping, p: PortRef, q: PortRef)
    requires UniqueNames(a) && Relaxed(a, a, g) && OnInterface(a, p) && OnInterface(a, q)
    ensures a.Target(p) == a.Target(q) <==> a.Target(MapPort(g, p)) == a.Target(MapPort(g, q))
  {
    hide Relaxed, AgentBijection, Names, OnInterface, MapPort, UniqueNames;
    RelaxedParts(a, a, g);
    ImageOnInterface(a, a, g, p);
    ImageOnInterface(a, a, g, q);
    if a.Target(p) == a.Target(q) { UniqueAt(a, p, q); }
    if a.Target(MapPort(g, p)) == a.Target(MapPort(g, q)) {
      UniqueAt(a, MapPort(g, p), MapPort(g, q));
      InterfacePort(a, p);
      InterfacePort(a, q);
      SameImage(a, a, g, p, q);
    }
  }

  lemma UniqueAt(a: Net, p: PortRef, q: PortRef)
    requires UniqueNames(a) && OnInterface(a, p) && OnInterface(a, q) && a.Target(p) == a.Target(q)
    ensures p == q
  {}

  lemma SameImage(a: Net, b: Net, g: Mapping, p: PortRef, q: PortRef)
    requires AgentBijection(a, b, g) && a.IsPort(p) && a.IsPort(q) && MapPort(g, p) == MapPort(g, q)
    ensures p == q
  {
    hide AgentBijection;
    BijectionAt(a, b, g, p.id);
    BijectionAt(a, b, g, q.id);
    BijectionApart(a, b, g, p.id, q.id);
  }

  lemma RelaxedParts(a: Net, b: Net, f: Mapping)
    requires Relaxed(a, b, f)
    ensures AgentBijection(a, b, f)
  {}

  // A bijection, one agent at a time.

  lemma BijectionAt(a: Net, b: Net, f: Mapping, x: AgentId)
    requires AgentBijection(a, b, f)
    ensures x in a.agents <==> x in f
    ensures x in a.agents ==> f[x] in b.agents && b.agents[f[x]] == a.agents[x]
  {}

  lemma BijectionApart(a: Net, b: Net, f: Mapping, x: AgentId, y: AgentId)
    requires AgentBijection(a, b, f) && x in f && y in f && f[x] == f[y]
    ensures x == y
  {}

  lemma BijectionOnto(a: Net, b: Net, f: Mapping, y: AgentId)
    requires AgentBijection(a, b, f)
    ensures y in b.agents <==> y in f.Values
  {}

  lemma MakeBijection(a: Net, b: Net, f: Mapping)
    requires f.Keys == a.agents.Keys
    requires forall x :: x in f ==> f[x] in b.agents && b.agents[f[x]] == a.agents[x]
    requires forall y :: y in b.agents ==> y in f.Values
    requires Injective(f)
    ensures AgentBijection(a, b, f)
  {}

  // The inverse of one bijection after another.

  ghost function PreimageOf(f: Mapping, y: AgentId): (x: AgentId)
    requires y in f.Values
    ensures x in f && f[x] == y
  {
    var x :| x in f && f[x] == y;
    x
  }

  /** `x` goes to the agent that `f` takes to where `g` takes `x`. */
  ghost function Back(f: Mapping, g: Mapping): Mapping {
    map x | x in g && g[x] in f.Values :: PreimageOf(f, g[x])
  }

  lemma BackAt(a: Net, b: Net, f: Mapping, g: Mapping, x: AgentId)
    requires AgentBijection(a, b, f) && AgentBijection(a, b, g)
    ensures x in Back(f, g) <==> x in a.agents
    ensures x in a.agents ==>
      var y := Back(f, g)[x]; y in f && y in a.agents && x in g && f[y] == g[x] && a.agents[y] == a.agents[x]
  {
    hide AgentBijection;
    BijectionAt(a, b, g, x);
    if x in a.agents {
      BijectionOnto(a, b, f, g[x]);
      BijectionAt(a, b, f, PreimageOf(f, g[x]));
    }
  }

  lemma BackOnto(a: Net, b: Net, f: Mapping, g: Mapping, y: AgentId)
    requires AgentBijection(a, b, f) && AgentBijection(a, b, g) && y in a.agents
    ensures y in Back(f, g).Values
  {
    hide AgentBijection;
    BijectionAt(a, b, f, y);
    BijectionOnto(a, b, g, f[y]);
    var x := PreimageOf(g, f[y]);
    BijectionAt(a, b, g, x);
    BackAt(a, b, f, g, x);
    BijectionApart(a, b, f, Back(f, g)[x], y);
    assert x in Back(f, g);
  }

  lemma BackBijection(a: Net, b: Net, f: Mapping, g: Mapping)
    requires AgentBijection(a, b, f) && AgentBijection(a, b, g)
    ensures AgentBijection(a, a, Back(f, g))
  {
    hide AgentBijection, Back, Injective;
    var k := Back(f, g);
    forall x: AgentId
      ensures x in k <==> x in a.agents
      ensures x in k ==> k[x] in a.agents && a.agents[k[x]] == a.agents[x]
    {
      BackAt(a, b, f, g, x);
    }
    assert k.Keys == a.agents.Keys;
    forall y | y in a.agents ensures y in k.Values { BackOnto(a, b, f, g, y); }
    BackInjective(a, b, f, g);
    MakeBijection(a, a, k);
  }

  lemma BackInjective(a: Net, b: Net, f: Mapping, g: Mapping)
    requires AgentBijection(a, b, f) && AgentBijection(a, b, g)
    ensures Injective(Back(f, g))
  {
    hide AgentBijection, Back;
    var k := Back(f, g);
    forall x, y | x in k && y in k && k[x] == k[y] ensures x == y {
      BackAt(a, b, f, g, x);
      BackAt(a, b, f, g, y);
      BijectionApart(a, b, g, x, y);
    }
  }

  lemma BackPort(a: Net, b: Net, f: Mapping, g: Mapping, p: PortRef)
    requires AgentBijection(a, b, f) && AgentBijection(a, b, g) && a.IsPort(p)
    ensures a.IsPort(MapPort(Back(f, g), p)) && MapPort(f, MapPort(Back(f, g), p)) == MapPort(g, p)
  {
    hide AgentBijection, Back;
    BackAt(a, b, f, g, p.id);
  }

  lemma BackRelaxed(a: Net, b: Net, f: Mapping, g: Mapping)
    requires a.WellFormed() && Relaxed(a, b, f) && Relaxed(a, b, g)
    ensures Relaxed(a, a, Back(f, g))
  {
    hide AgentBijection, Back, MapPort, Net.WellFormed;
    var k := Back(f, g);
    BackBijection(a, b, f, g);
    forall p | a.IsPort(p) ensures EndAgrees(k, a.Target(p), a.Target(MapPort(k, p)), false) {
      BackEnd(a, b, f, g, p);
    }
  }

  lemma RelaxedEnd(a: Net, b: Net, f: Mapping, p: PortRef)
    requires Relaxed(a, b, f) && a.IsPort(p)
    ensures EndAgrees(f, a.Target(p), b.Target(MapPort(f, p)), false)
  {}

  lemma BackEnd(a: Net, b: Net, f: Mapping, g: Mapping, p: PortRef)
    requires a.WellFormed() && Relaxed(a, b, f) && Relaxed(a, b, g) && a.IsPort(p)
    ensures EndAgrees(Back(f, g), a.Target(p), a.Target(MapPort(Back(f, g), p)), false)
  {
    hide Relaxed, AgentBijection, Back, Net.WellFormed, MapPort, EndAgrees;
    var k := Back(f, g);
    RelaxedParts(a, b, f);
    RelaxedParts(a, b, g);
    BackPort(a, b, f, g, p);
    var q := MapPort(k, p);
    assert a.IsPort(q);
    assert MapPort(f, q) == MapPort(g, p);
    RelaxedEnd(a, b, g, p);
    RelaxedEnd(a, b, f, q);
    var s, t := a.Target(p), a.Target(q);
    var u := b.Target(MapPort(g, p));
    assert EndAgrees(g, s, u, false) && EndAgrees(f, t, u, false);
    BackEnds(a, b, f, g, p, q, u);
  }

  lemma BackEnds(a: Net, b: Net, f: Mapping, g: Mapping, p: PortRef, q: PortRef, u: PortRef)
    requires a.WellFormed() && AgentBijection(a, b, f) && AgentBijection(a, b, g) && a.IsPort(p) && a.IsPort(q)
    requires EndAgrees(g, a.Target(p), u, false) && EndAgrees(f, a.Target(q), u, false)
    ensures EndAgrees(Back(f, g), a.Target(p), a.Target(q), false)
  {
    hide AgentBijection, Back, EndAgrees, Net.WellFormed;
    var s, t := a.Target(p), a.Target(q);
    EndKinds(f, g, s, t, u);
    if s.AgentPort? {
      TargetLive(a, p);
      TargetLive(a, q);
      BackAgents(a, b, f, g, s, t, u);
    } else {
      EndLabels(f, g, Back(f, g), s, t, u);
    }
  }

  lemma BackAgents(a: Net, b: Net, f: Mapping, g: Mapping, s: PortRef, t: PortRef, u: PortRef)
    requires AgentBijection(a, b, f) && AgentBijection(a, b, g) && EndAgrees(g, s, u, false) && EndAgrees(f, t, u, false)
    requires s.AgentPort? && t.AgentPort? && s.id in a.agents && t.id in a.agents
    ensures EndAgrees(Back(f, g), s, t, false)
  {
    hide AgentBijection, Back, EndAgrees;
    var k := Back(f, g);
    BackAt(a, b, f, g, s.id);
    BijectionAt(a, b, f, t.id);
    EndMeets(f, g, s, t, u);
    BijectionApart(a, b, f, k[s.id], t.id);
    EndFits(k, s, t);
  }

  lemma EndKinds(f: Mapping, g: Mapping, s: PortRef, t: PortRef, u: PortRef)
    requires EndAgrees(g, s, u, false) && EndAgrees(f, t, u, false)
    ensures s.AgentPort? <==> t.AgentPort?
  {}

  lemma EndMeets(f: Mapping, g: Mapping, s: PortRef, t: PortRef, u: PortRef)
    requires EndAgrees(g, s, u, false) && EndAgrees(f, t, u, false) && s.AgentPort? && t.AgentPort?
    requires s.id in g && t.id in f
    ensures f[t.id] == g[s.id] && s.port == t.port
  {}

  lemma EndFits(k: Mapping, s: PortRef, t: PortRef)
    requires s.AgentPort? && t.AgentPort? && s.port == t.port && s.id in k && k[s.id] == t.id
    ensures EndAgrees(k, s, t, false)
  {}

  lemma EndLabels(f: Mapping, g: Mapping, k: Mapping, s: PortRef, t: PortRef, u: PortRef)
    requires EndAgrees(g, s, u, false) && EndAgrees(f, t, u, false) && s.FreePort? && t.FreePort?
    ensures EndAgrees(k, s, t, false)
  {}

  lemma TargetLive(a: Net, p: PortRef)
    requires a.WellFormed() && a.IsPort(p) && a.Target(p).AgentPort?
    ensures a.Target(p).id in a.agents
  {
    assert a.IsPort(a.Target(p));
  }

  /** On a tolerant net the second pass cannot fail once there is a solution at all. */
  lemma TolerantCorrespond(a: Net, b: Net, f: Mapping, h: map<nat, nat>, g: Mapping)
    requires a.WellFormed() && Tolerant(a) && GraphIsomorphism(a, b, f, h) && Relaxed(a, b, g)
    ensures NamesCorrespond(a, b, g)
  {
    hide AgentBijection, Relaxed, GraphIsomorphism, Back, Net.WellFormed, NamesCorrespond;
    GraphIsRelaxed(a, b, f, h);
    RelaxedParts(a, b, f);
    RelaxedParts(a, b, g);
    BackRelaxed(a, b, f, g);
    CorrespondVia(a, b, f, h, g);
  }

  lemma CorrespondVia(a: Net, b: Net, f: Mapping, h: map<nat, nat>, g: Mapping)
    requires GraphIsomorphism(a, b, f, h) && AgentBijection(a, b, f) && AgentBijection(a, b, g)
    requires Relaxed(a, a, Back(f, g)) && NamesCorrespond(a, a, Back(f, g))
    ensures NamesCorrespond(a, b, g)
  {
    hide AgentBijection, Relaxed, GraphIsomorphism, Back, OnInterface, MapPort;
    var k := Back(f, g);
    forall p, q | OnInterface(a, p) && OnInterface(a, q)
      ensures a.Target(p) == a.Target(q) <==> b.Target(MapPort(g, p)) == b.Target(MapPort(g, q))
    {
      assert a.Target(p) == a.Target(q) <==> a.Target(MapPort(k, p)) == a.Target(MapPort(k, q));
      BackLabels(a, b, f, h, g, p, q);
    }
  }

  lemma BackLabels(a: Net, b: Net, f: Mapping, h: map<nat, nat>, g: Mapping, p: PortRef, q: PortRef)
    requires GraphIsomorphism(a, b, f, h) && AgentBijection(a, b, f) && AgentBijection(a, b, g) && Relaxed(a, a, Back(f, g))
    requires OnInterface(a, p) && OnInterface(a, q)
    ensures var k := Back(f, g);
      a.Target(MapPort(k, p)) == a.Target(MapPort(k, q)) <==> b.Target(MapPort(g, p)) == b.Target(MapPort(g, q))
  {
    hide AgentBijection, Relaxed, GraphIsomorphism, Back, OnInterface, MapPort;
    var k := Back(f, g);
    InterfacePort(a, p);
    InterfacePort(a, q);
    BackPort(a, b, f, g, p);
    BackPort(a, b, f, g, q);
    ImageOnInterface(a, a, k, p);
    ImageOnInterface(a, a, k, q);
    SameLabel(a, b, f, h, MapPort(k, p), MapPort(k, q));
  }

  lemma InterfacePort(a: Net, p: PortRef)
    requires OnInterface(a, p)
    ensures a.IsPort(p)
  {}

  lemma SameLabel(a: Net, b: Net, f: Mapping, h: map<nat, nat>, u: PortRef, v: PortRef)
    requires GraphIsomorphism(a, b, f, h) && OnInterface(a, u) && OnInterface(a, v)
    ensures a.Target(u) == a.Target(v) <==> b.Target(MapPort(f, u)) == b.Target(MapPort(f, v))
  {
    assert u == AgentPort(u.id, u.port) && v == AgentPort(v.id, v.port);
    assert a.Target(u).name in h && a.Target(v).name in h;
  }

  /** What the checker answers on nets with equal counts: pass 1 finds a bijection
      and pass 2 accepts the names it implies. No other bijection is tried. */
  ghost predicate Accepts(a: Net, b: Net)
    requires Setup(a, b, false).Searchable()
  {
    var res := Search(Setup(a, b, false), 0, map[]);
    res.Some? && NamesCorrespond(a, b, res.value)
  }

  lemma RelaxedRespects(a: Net, b: Net, f: Mapping)
    requires AgentBijection(a, b, f)
    ensures Respects(Setup(a, b, false), f) <==> Relaxed(a, b, f)
  {
    forall p | a.IsPort(p) ensures MapPort(f, p) == AgentPort(f[p.id], p.port) {}
  }

  /** The answer of the checker: equal counts per symbol, and both passes accept. */
  ghost predicate Accepted(a: Net, b: Net) {
    && (forall s :: |a.AgentsOf(s)| == |b.AgentsOf(s)|)
    && Setup(a, b, false).Searchable() && Accepts(a, b)
  }

  lemma GraphCounts(a: Net, b: Net)
    requires GraphIsomorphic(a, b)
    ensures forall s :: |a.AgentsOf(s)| == |b.AgentsOf(s)|
  {
    var f, h :| GraphIsomorphism(a, b, f, h);
    forall s ensures |a.AgentsOf(s)| == |b.AgentsOf(s)| { BijectionGivesCounts(a, b, f, s); }
  }

  lemma Exact(a: Net, b: Net)
    requires a.WellFormed() && b.WellFormed() && Tolerant(a) && GraphIsomorphic(a, b)
    ensures Accepted(a, b)
  {
    hide AgentBijection, Tolerant, Relaxed, NamesCorrespond, Ready, Respects, GraphIsomorphism;
    GraphCounts(a, b);
    var f, h :| GraphIsomorphism(a, b, f, h);
    var P := Setup(a, b, false);
    SetupReady(a, b, false);
    SearchDecides(P);
    GraphIsRelaxed(a, b, f, h);
    RelaxedParts(a, b, f);
    RelaxedRespects(a, b, f);
    var g := Search(P, 0, map[]).value;
    RelaxedRespects(a, b, g);
    TolerantCorrespond(a, b, f, h, g);
  }

  lemma EmptyGraphs(a: Net, b: Net)
    requires Isomorphism(a, b, map[])
    ensures a.agents == map[] && GraphIsomorphism(a, b, map[], map[])
  {
    var h: map<nat, nat> := map[];
    assert h.Values == {} && Names(a) == {} && Names(b) == {};
  }

  /** Both passes, for nets with equal counts per symbol. */
  method TwoPasses(a: Net, b: Net) returns (r: bool)
    requires a.WellFormed() && b.WellFormed() && forall s :: |a.AgentsOf(s)| == |b.AgentsOf(s)|
    ensures Setup(a, b, false).Searchable() && r == Accepts(a, b)
    ensures r ==> GraphIsomorphic(a, b)
  {
    hide AgentBijection, NamesCorrespond, Ready, Respects;
    var groups := GroupAgents(b);
    var P := Problem(a, b, SortBy(Key(a, groups), LiveIds(a, a.arena)), groups, false);
    SetupReady(a, b, false);
    assert Ready(P) ==> P.Searchable() && Distinct(P.order) by { ReadyParts(P); }
    var mapping, reverse;
    r, mapping, reverse := Backtrack(P);
    SearchDecides(P);
    if r {
      RelaxedRespects(a, b, mapping);
      var names;
      r, names := DeriveNames(a, b, mapping);
    }
  }

  lemma ReadyParts(P: Problem)
    ensures Ready(P) ==> P.Searchable() && Distinct(P.order)
  {}

  /** Never wrongly accepts; exact on tolerant nets, and so whenever each name of `a` is on
      one port. */
  method NetsGraphIsomorphic(a: Net, b: Net) returns (r: bool)
    requires a.WellFormed() && b.WellFormed()
    ensures r == Accepted(a, b)
    ensures r ==> GraphIsomorphic(a, b)
    ensures Tolerant(a) || UniqueNames(a) ==> (r <==> GraphIsomorphic(a, b))
  {
    hide AgentBijection, UniqueNames, Ready, Tolerant, Accepts;
    var countsA := CountAgents(a);
    var countsB := CountAgents(b);
    if UniqueNames(a) { UniqueIsTolerant(a); }
    if Tolerant(a) && GraphIsomorphic(a, b) { Exact(a, b); }
    if countsA != countsB {
      RejectCounts(a, b, countsA, countsB);
      DifferentCounts(a, b, countsA, countsB);
      return false;
    }
    EqualCounts(a, b, countsA);
    if countsA == map[] {
      EmptyNets(a, b);
      EmptyGraphs(a, b);
      EmptyAccepted(a, b);
      return true;
    }
    r := TwoPasses(a, b);
  }

  lemma DifferentCounts(a: Net, b: Net, countsA: map<Symbol, nat>, countsB: map<Symbol, nat>)
    requires countsA != countsB
    requires forall s :: s in countsA <==> a.AgentsOf(s) != {}
    requires forall s :: s in countsA ==> countsA[s] == |a.AgentsOf(s)|
    requires forall s :: s in countsB <==> b.AgentsOf(s) != {}
    requires forall s :: s in countsB ==> countsB[s] == |b.AgentsOf(s)|
    ensures !(forall s :: |a.AgentsOf(s)| == |b.AgentsOf(s)|)
  {
    if forall s :: |a.AgentsOf(s)| == |b.AgentsOf(s)| { SameCounts(a, b, countsA, countsB); }
  }

  lemma SameCounts(a: Net, b: Net, countsA: map<Symbol, nat>, countsB: map<Symbol, nat>)
    requires forall s :: s in countsA <==> a.AgentsOf(s) != {}
    requires forall s :: s in countsA ==> countsA[s] == |a.AgentsOf(s)|
    requires forall s :: s in countsB <==> b.AgentsOf(s) != {}
    requires forall s :: s in countsB ==> countsB[s] == |b.AgentsOf(s)|
    requires forall s :: |a.AgentsOf(s)| == |b.AgentsOf(s)|
    ensures countsA == countsB
  {
    assert forall s :: s in countsA <==> s in countsB;
    assert forall s :: s in countsA ==> countsA[s] == countsB[s];
  }

  lemma {:induction false} NoneLive(a: Net, k: nat)
    requires a.agents == map[]
    ensures LiveIds(a, k) == []
  {
    if k > 0 { NoneLive(a, k - 1); }
  }

  lemma EmptyAccepted(a: Net, b: Net)
    requires a.agents == map[] && forall s :: |a.AgentsOf(s)| == |b.AgentsOf(s)|
    ensures Accepted(a, b)
  {
    var P := Setup(a, b, false);
    assert |P.order| == |LiveIds(a, a.arena)|;
    NoneLive(a, a.arena);
  }

  // ------------------------------------------------------ repeated names: the check is inexact

  /** Three erasers whose principal ports carry the given interface names. */
  ghost predicate Erasers(n: Net, base: nat, names: seq<nat>) {
    && |names| == 3 && (forall i :: 0 <= i < 3 ==> names[i] < U32_MAX) && n.arena == base + 3
    && n.agents.Keys == {base, base + 1, base + 2} && (forall id :: id in n.agents ==> n.agents[id] == Era)
    && n.Target(AgentPort(base, 0)) == FreePort(names[0])
    && n.Target(AgentPort(base + 1, 0)) == FreePort(names[1])
    && n.Target(AgentPort(base + 2, 0)) == FreePort(names[2])
  }

  lemma ErasersParts(n: Net, base: nat, names: seq<nat>)
    requires Erasers(n, base, names)
    ensures forall p :: n.IsPort(p) <==> p.AgentPort? && base <= p.id < base + 3 && p.port == 0
    ensures forall p :: n.IsPort(p) ==> OnInterface(n, p)
    ensures n.WellFormed()
  {
    forall p | n.IsPort(p) ensures OnInterface(n, p) {
      assert p == AgentPort(base, 0) || p == AgentPort(base + 1, 0) || p == AgentPort(base + 2, 0);
    }
  }

  /** The nets of the example: names 5, 5, 6 against names 7, 8, 8. */
  ghost predicate Example(a: Net, b: Net) {
    Erasers(a, 0, [5, 5, 6]) && Erasers(b, 3, [7, 8, 8])
  }

  /** With the names ignored, any two erasers fit. */
  lemma ErasersFit(P: Problem, i: nat, c: nat, m: Mapping)
    requires Example(P.a, P.b) && !P.strict && P.Searchable()
    requires P.order == [0, 1, 2] && P.groups == map[Era := [3, 4, 5]]
    requires i < 3 && c < 3
    ensures P.Candidates(i) == [3, 4, 5] && (Usable(P, i, c, m) <==> 3 + c !in m.Values)
  {
    assert P.order[i] == i && P.Candidates(i)[c] == 3 + c;
    assert i == 0 || i == 1 || i == 2;
    assert c == 0 || c == 1 || c == 2;
  }

  /** So the search pairs the erasers in order. */
  lemma ErasersSearch(P: Problem)
    requires Example(P.a, P.b) && !P.strict && P.Searchable()
    requires P.order == [0, 1, 2] && P.groups == map[Era := [3, 4, 5]]
    ensures Search(P, 0, map[]) == Some(map[0 := 3, 1 := 4, 2 := 5])
  {
    var m0: Mapping := map[];
    var m1: Mapping := map[0 := 3];
    var m2: Mapping := map[0 := 3, 1 := 4];
    var m3: Mapping := map[0 := 3, 1 := 4, 2 := 5];
    hide Usable, Example;
    assert Search(P, 2, m2) == Some(m3) by {
      assert m2[0] == 3 && m2[1] == 4 && m2[2 := 5] == m3;
      ErasersFit(P, 2, 0, m2);
      ErasersFit(P, 2, 1, m2);
      ErasersFit(P, 2, 2, m2);
      assert Search(P, 3, m3) == Some(m3);
      assert SearchFrom(P, 2, 2, m2) == Some(m3);
      assert SearchFrom(P, 2, 1, m2) == Some(m3);
    }
    assert Search(P, 1, m1) == Some(m3) by {
      assert m1[0] == 3 && m1[1 := 4] == m2;
      ErasersFit(P, 1, 0, m1);
      ErasersFit(P, 1, 1, m1);
      assert SearchFrom(P, 1, 1, m1) == Some(m3);
    }
    assert m0[0 := 3] == m1;
    ErasersFit(P, 0, 0, m0);
  }

  lemma ErasersMembers(n: Net, names: seq<nat>)
    requires Erasers(n, 3, names)
    ensures Groups(n, 6) == map[Era := [3, 4, 5]]
  {
    assert Members(n, Era, 3) == [] by {
      assert 0 !in n.agents && 1 !in n.agents && 2 !in n.agents;
      assert Members(n, Era, 1) == [];
      assert Members(n, Era, 2) == [];
    }
    assert Members(n, Era, 4) == [3];
    assert Members(n, Era, 5) == [3, 4];
    assert Members(n, Era, 6) == [3, 4, 5];
    forall s ensures s != Era ==> Members(n, s, 6) == [] {
      if s != Era && Members(n, s, 6) != [] { assert Members(n, s, 6)[0] in Members(n, s, 6); }
    }
  }

  lemma ErasersOrder(n: Net, names: seq<nat>, groups: map<Symbol, seq<AgentId>>, order: seq<AgentId>)
    requires Erasers(n, 0, names) && Sorted(Key(n, groups), order)
    requires forall x :: x in order <==> x in n.agents
    ensures order == [0, 1, 2]
  {
    assert forall x :: x in [0, 1, 2] <==> x in n.agents;
    SortedUnique(Key(n, groups), order, [0, 1, 2]);
  }

  lemma ErasersSetup(a: Net, b: Net)
    requires Example(a, b)
    ensures var P := Setup(a, b, false); P.a == a && P.b == b && !P.strict
    ensures var P := Setup(a, b, false); P.order == [0, 1, 2] && P.groups == map[Era := [3, 4, 5]] && P.Searchable()
  {
    var P := Setup(a, b, false);
    ErasersMembers(b, [7, 8, 8]);
    ErasersOrder(a, [5, 5, 6], P.groups, P.order);
  }

  lemma ErasersNames(n: Net, base: nat, names: seq<nat>)
    requires Erasers(n, base, names)
    ensures Names(n) == {names[0], names[1], names[2]}
  {
    ErasersParts(n, base, names);
    assert n.IsPort(AgentPort(base, 0)) && n.IsPort(AgentPort(base + 1, 0)) && n.IsPort(AgentPort(base + 2, 0));
  }

  ghost predicate Rotation(f: Mapping, h: map<nat, nat>) {
    && f.Keys == {0, 1, 2} && f[0] == 4 && f[1] == 5 && f[2] == 3
    && h.Keys == {5, 6} && h[5] == 8 && h[6] == 7
  }

  lemma RotationValues(f: Mapping, h: map<nat, nat>)
    requires Rotation(f, h)
    ensures f.Values == {3, 4, 5} && Injective(f) && h.Values == {7, 8} && Injective(h)
  {}

  lemma RotationBijection(a: Net, b: Net, f: Mapping, h: map<nat, nat>)
    requires Example(a, b) && Rotation(f, h)
    ensures AgentBijection(a, b, f)
  {
    RotationValues(f, h);
    hide Injective;
  }

  lemma RotatedPort(a: Net, b: Net, f: Mapping, h: map<nat, nat>, p: PortRef)
    requires Example(a, b) && Rotation(f, h) && a.IsPort(p)
    ensures b.Target(MapPort(f, p)) == Relabel(f, h, a.Target(p))
  {
    assert p == AgentPort(0, 0) || p == AgentPort(1, 0) || p == AgentPort(2, 0);
  }

  /** Pairing each eraser with the one after relates the two nets. */
  lemma RotationIsomorphism(a: Net, b: Net, f: Mapping, h: map<nat, nat>)
    requires Example(a, b) && Rotation(f, h)
    ensures GraphIsomorphism(a, b, f, h)
  {
    ErasersNames(a, 0, [5, 5, 6]);
    ErasersNames(b, 3, [7, 8, 8]);
    RotationBijection(a, b, f, h);
    RotationValues(f, h);
    hide Names, AgentBijection, Injective, Example, Relabel;
    forall p | a.IsPort(p) ensures b.Target(MapPort(f, p)) == Relabel(f, h, a.Target(p)) {
      RotatedPort(a, b, f, h, p);
    }
  }

  lemma OrderConflicts(a: Net, b: Net, f: Mapping)
    requires Example(a, b) && f == map[0 := 3, 1 := 4, 2 := 5]
    ensures !NamesCorrespond(a, b, f)
  {
    ErasersParts(a, 0, [5, 5, 6]);
    assert f[0] == 3 && f[1] == 4;
    assert MapPort(f, AgentPort(0, 0)) == AgentPort(3, 0) && MapPort(f, AgentPort(1, 0)) == AgentPort(4, 0);
    assert OnInterface(a, AgentPort(0, 0)) && OnInterface(a, AgentPort(1, 0));
  }

  /** On repeated names the check is not exact: these nets are isomorphic, yet the
      first bijection found pairs the names badly and no other one is tried. */
  lemma RepeatedNames(a: Net, b: Net)
    requires Example(a, b)
    ensures a.WellFormed() && b.WellFormed() && GraphIsomorphic(a, b)
    ensures Setup(a, b, false).Searchable() && !Accepts(a, b)
  {
    ErasersParts(a, 0, [5, 5, 6]);
    ErasersParts(b, 3, [7, 8, 8]);
    hide Example, GraphIsomorphism, NamesCorrespond, Search, Setup, Net.WellFormed, Net.IsPort, OnInterface;
    assert GraphIsomorphic(a, b) by {
      RotationIsomorphism(a, b, map[0 := 4, 1 := 5, 2 := 3], map[5 := 8, 6 := 7]);
    }
    assert Setup(a, b, false).Searchable() && !Accepts(a, b) by {
      ErasersSetup(a, b);
      ErasersSearch(Setup(a, b, false));
      OrderConflicts(a, b, map[0 := 3, 1 := 4, 2 := 5]);
    }
  }
}
