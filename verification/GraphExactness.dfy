/** Exactly on which nets the graph isomorphism checker misses nothing. */
module GraphExactness {
  import opened Nets
  import opened Ordering
  import opened Backtracking
  import opened NetIsomorphism
  import opened NetGraphIsomorphism

  // ------------------------------------------------- the relaxed search never sees names

  /** Two targets that differ in their interface name at most. */
  predicate Alike(s: PortRef, t: PortRef) {
    s == t || (s.FreePort? && t.FreePort? && (s == DISCONNECTED <==> t == DISCONNECTED))
  }

  lemma AlikeEnds(m: Mapping, r: PortRef, s: PortRef, t: PortRef)
    requires Alike(s, t)
    ensures EndAgrees(m, r, s, false) <==> EndAgrees(m, r, t, false)
  {}

  /** The same search in two nets that differ in their names only. */
  ghost predicate SameSearch(P: Problem, Q: Problem) {
    && Q.a == P.a && Q.order == P.order && Q.groups == P.groups && !P.strict && !Q.strict
    && forall p :: Alike(P.b.Target(p), Q.b.Target(p))
  }

  lemma SameUsable(P: Problem, Q: Problem, i: nat, c: nat, m: Mapping)
    requires SameSearch(P, Q) && P.Searchable() && i < |P.order| && c < |P.Candidates(i)|
    ensures Q.Searchable() && Usable(P, i, c, m) == Usable(Q, i, c, m)
  {
    var x, y := P.order[i], P.Candidates(i)[c];
    forall p | 0 <= p < TotalPorts(P.a.agents[x])
      ensures EndAgrees(m[x := y], P.a.Target(AgentPort(x, p)), P.b.Target(AgentPort(y, p)), false)
        == EndAgrees(m[x := y], P.a.Target(AgentPort(x, p)), Q.b.Target(AgentPort(y, p)), false)
    {
      AlikeEnds(m[x := y], P.a.Target(AgentPort(x, p)), P.b.Target(AgentPort(y, p)), Q.b.Target(AgentPort(y, p)));
    }
  }

  lemma {:induction false} SameAnswer(P: Problem, Q: Problem, i: nat, m: Mapping)
    requires SameSearch(P, Q) && P.Searchable() && i <= |P.order|
    ensures Q.Searchable() && Search(P, i, m) == Search(Q, i, m)
    decreases |P.order| - i, 1, 0
  {
    hide SameSearch, Usable;
    SearchableToo(P, Q);
    if i < |P.order| { SameAnswerFrom(P, Q, i, 0, m); }
  }

  lemma SearchableToo(P: Problem, Q: Problem)
    requires SameSearch(P, Q) && P.Searchable()
    ensures Q.Searchable() && Q.order == P.order && Q.groups == P.groups && Q.a == P.a
  {}

  lemma {:induction false} SameAnswerFrom(P: Problem, Q: Problem, i: nat, c: nat, m: Mapping)
    requires SameSearch(P, Q) && P.Searchable() && i < |P.order| && c <= |P.Candidates(i)|
    ensures Q.Searchable() && c <= |Q.Candidates(i)| && SearchFrom(P, i, c, m) == SearchFrom(Q, i, c, m)
    decreases |P.order| - i, 0, |P.Candidates(i)| - c
  {
    hide SameSearch, Usable;
    SearchableToo(P, Q);
    if c < |P.Candidates(i)| {
      SameUsable(P, Q, i, c, m);
      SameAnswerFrom(P, Q, i, c + 1, m);
      SameAnswer(P, Q, i + 1, m[P.order[i] := P.Candidates(i)[c]]);
    }
  }

  // ----------------------------------------------------- moving the names along a mapping

  /** The port that `g` takes to `p`. */
  ghost function Behind(g: Mapping, p: PortRef): PortRef {
    if p.AgentPort? && p.id in g.Values then AgentPort(PreimageOf(g, p.id), p.port) else p
  }

  /** `a` with every name carried from its port to the image of that port. */
  ghost function Moved(a: Net, g: Mapping): Net {
    a.(ports := map p | p in a.ports :: if OnInterface(a, p) then a.Target(Behind(g, p)) else a.ports[p])
  }

  lemma MovedTarget(a: Net, g: Mapping, p: PortRef)
    ensures Moved(a, g).Target(p) == if OnInterface(a, p) then a.Target(Behind(g, p)) else a.Target(p)
  {}

  lemma BehindPort(a: Net, g: Mapping, p: PortRef)
    requires Relaxed(a, a, g) && OnInterface(a, p)
    ensures OnInterface(a, Behind(g, p)) && MapPort(g, Behind(g, p)) == p
  {
    var q := Preimage(a, a, g, p);
    RelaxedParts(a, a, g);
    hide Relaxed, AgentBijection, OnInterface;
    InterfacePort(a, p);
    InterfacePort(a, q);
    BijectionOnto(a, a, g, p.id);
    BijectionAt(a, a, g, q.id);
    var x := PreimageOf(g, p.id);
    BijectionAt(a, a, g, x);
    BijectionApart(a, a, g, x, q.id);
  }

  lemma BehindImage(a: Net, g: Mapping, q: PortRef)
    requires Relaxed(a, a, g) && OnInterface(a, q)
    ensures OnInterface(a, MapPort(g, q)) && Behind(g, MapPort(g, q)) == q
  {
    hide Names;
    ImageOnInterface(a, a, g, q);
    RelaxedParts(a, a, g);
    var p := MapPort(g, q);
    BehindPort(a, g, p);
    hide Relaxed, AgentBijection, OnInterface;
    InterfacePort(a, q);
    InterfacePort(a, Behind(g, p));
    SameImage(a, a, g, Behind(g, p), q);
  }

  /** Only names differ between a net and its moved form. */
  lemma MovedAlike(a: Net, g: Mapping, p: PortRef)
    requires Relaxed(a, a, g)
    ensures Alike(a.Target(p), Moved(a, g).Target(p))
  {
    hide Relaxed, Moved;
    MovedTarget(a, g, p);
    if OnInterface(a, p) { BehindPort(a, g, p); }
  }

  lemma MovedWellFormed(a: Net, g: Mapping)
    requires a.WellFormed() && Relaxed(a, a, g)
    ensures Moved(a, g).WellFormed()
  {
    hide Relaxed, Net.WellFormed;
    var b := Moved(a, g);
    assert b.agents == a.agents && b.arena == a.arena;
    hide Moved;
    forall p ensures Alike(a.Target(p), b.Target(p)) { MovedAlike(a, g, p); }
    AlikeWellFormed(a, b);
  }

  lemma AlikeWellFormed(a: Net, b: Net)
    requires a.WellFormed() && b.agents == a.agents && b.arena == a.arena
    requires forall p :: Alike(a.Target(p), b.Target(p))
    ensures b.WellFormed()
  {
    forall p | b.IsPort(p) && b.Target(p).AgentPort? ensures b.IsPort(b.Target(p)) && b.Target(b.Target(p)) == p {
      assert a.IsPort(p) && Alike(a.Target(p), b.Target(p)) && Alike(a.Target(b.Target(p)), b.Target(b.Target(p)));
    }
  }

  lemma AlikeInterface(a: Net, b: Net, p: PortRef)
    requires b.agents == a.agents && Alike(a.Target(p), b.Target(p))
    ensures OnInterface(a, p) <==> OnInterface(b, p)
  {}

  lemma MovedInterface(a: Net, g: Mapping, p: PortRef)
    requires Relaxed(a, a, g)
    ensures OnInterface(a, p) <==> OnInterface(Moved(a, g), p)
  {
    hide Relaxed, OnInterface, Alike;
    assert Moved(a, g).agents == a.agents;
    hide Moved;
    MovedAlike(a, g, p);
    AlikeInterface(a, Moved(a, g), p);
  }

  lemma MovedNames(a: Net, g: Mapping)
    requires Relaxed(a, a, g)
    ensures Names(Moved(a, g)) == Names(a)
  {
    hide Relaxed, Behind;
    var b := Moved(a, g);
    forall k | k in Names(b) ensures k in Names(a) {
      var id, p :| id in b.agents && p in {0, 1, 2} && OnInterface(b, AgentPort(id, p)) && b.Target(AgentPort(id, p)).name == k;
      MovedName(a, g, AgentPort(id, p));
    }
    forall k | k in Names(a) ensures k in Names(b) {
      var id, p :| id in a.agents && p in {0, 1, 2} && OnInterface(a, AgentPort(id, p)) && a.Target(AgentPort(id, p)).name == k;
      MovedNameBack(a, g, AgentPort(id, p));
    }
  }

  lemma NameOf(n: Net, p: PortRef)
    requires OnInterface(n, p)
    ensures n.Target(p).name in Names(n)
  {
    assert p == AgentPort(p.id, p.port) && p.port in {0, 1, 2};
  }

  lemma MovedName(a: Net, g: Mapping, p: PortRef)
    requires Relaxed(a, a, g) && OnInterface(Moved(a, g), p)
    ensures Moved(a, g).Target(p).name in Names(a)
  {
    hide Relaxed, Moved, OnInterface, Names;
    MovedInterface(a, g, p);
    MovedTarget(a, g, p);
    BehindPort(a, g, p);
    NameOf(a, Behind(g, p));
  }

  lemma MovedNameBack(a: Net, g: Mapping, q: PortRef)
    requires Relaxed(a, a, g) && OnInterface(a, q)
    ensures a.Target(q).name in Names(Moved(a, g))
  {
    hide Relaxed, Moved, OnInterface, Names, MapPort, Behind;
    var b, p := Moved(a, g), MapPort(g, q);
    BehindImage(a, g, q);
    MovedTarget(a, g, p);
    MovedInterface(a, g, p);
    NameOf(b, p);
  }

  /** Moving the names along `g` gives a net that `g` relates to the original. */
  lemma MovedIsomorphic(a: Net, g: Mapping)
    requires a.WellFormed() && Relaxed(a, a, g)
    ensures GraphIsomorphic(a, Moved(a, g))
  {
    hide Relaxed, Names, AgentBijection, Injective, GraphIsomorphic;
    var b := Moved(a, g);
    assert b.agents == a.agents;
    hide Moved, Relabel, MapPort, Net.WellFormed, KeepsNames;
    var h := SameNames(Names(a));
    RelaxedParts(a, a, g);
    MovedNames(a, g);
    MovedBijection(a, b, g);
    forall p | a.IsPort(p) ensures b.Target(MapPort(g, p)) == Relabel(g, h, a.Target(p)) { MovedWire(a, g, h, p); }
    MakeGraphIsomorphic(a, b, g, h);
  }

  lemma MakeGraphIsomorphic(a: Net, b: Net, f: Mapping, h: map<nat, nat>)
    requires AgentBijection(a, b, f) && KeepsNames(h, Names(a)) && Names(b) == Names(a)
    requires forall p :: a.IsPort(p) ==> b.Target(MapPort(f, p)) == Relabel(f, h, a.Target(p))
    ensures GraphIsomorphic(a, b)
  {
    hide AgentBijection, Injective, Names, Relabel, MapPort, Net.IsPort;
    assert GraphIsomorphism(a, b, f, h);
  }

  lemma MovedBijection(a: Net, b: Net, g: Mapping)
    requires AgentBijection(a, a, g) && b.agents == a.agents
    ensures AgentBijection(a, b, g)
  {}

  ghost predicate KeepsNames(h: map<nat, nat>, names: set<nat>) {
    h.Keys == names && h.Values == names && Injective(h) && forall k :: k in h ==> h[k] == k
  }

  /** Every name stays. */
  ghost function SameNames(names: set<nat>): (h: map<nat, nat>)
    ensures KeepsNames(h, names)
  {
    var h := map k | k in names :: k;
    assert forall k :: k in names ==> k in h && h[k] == k && h[k] in h.Values;
    h
  }

  lemma MovedWire(a: Net, g: Mapping, h: map<nat, nat>, p: PortRef)
    requires a.WellFormed() && Relaxed(a, a, g) && a.IsPort(p) && KeepsNames(h, Names(a))
    ensures Moved(a, g).Target(MapPort(g, p)) == Relabel(g, h, a.Target(p))
  {
    hide Relaxed, Moved, Behind, AgentBijection, Names, OnInterface, KeepsNames;
    var q := MapPort(g, p);
    MovedTarget(a, g, q);
    if OnInterface(a, p) {
      hide MapPort;
      BehindImage(a, g, p);
      NameOf(a, p);
      InterfaceTarget(a, p);
      KeptName(h, Names(a), a.Target(p).name);
    } else {
      PlainWire(a, g, p);
      NoSentinelName(a);
      PlainTarget(a, p);
      KeptName(h, Names(a), U32_MAX);
    }
  }

  lemma KeptName(h: map<nat, nat>, names: set<nat>, k: nat)
    requires KeepsNames(h, names)
    ensures k in h <==> k in names
    ensures k in h ==> h[k] == k
  {}

  lemma InterfaceTarget(a: Net, p: PortRef)
    requires OnInterface(a, p)
    ensures a.Target(p).FreePort?
  {}

  lemma PlainTarget(a: Net, p: PortRef)
    requires a.IsPort(p) && !OnInterface(a, p)
    ensures a.Target(p).AgentPort? || a.Target(p) == DISCONNECTED
  {}

  lemma NoSentinelName(a: Net)
    ensures U32_MAX !in Names(a)
  {}

  /** Where no name is involved, a relaxed mapping keeps the wire. */
  lemma PlainWire(a: Net, g: Mapping, p: PortRef)
    requires a.WellFormed() && Relaxed(a, a, g) && a.IsPort(p) && !OnInterface(a, p)
    ensures !OnInterface(a, MapPort(g, p)) && a.Target(MapPort(g, p)) == MapPort(g, a.Target(p))
  {
    hide *;
    RelaxedEnd(a, a, g, p);
    PlainTarget(a, p);
    if a.Target(p).AgentPort? { ImageThere(a, g, p); }
    PlainEnd(g, a.Target(p), a.Target(MapPort(g, p)));
    NotNamed(a, MapPort(g, p));
  }

  lemma ImageThere(a: Net, g: Mapping, p: PortRef)
    requires a.WellFormed() && Relaxed(a, a, g) && a.IsPort(p) && a.Target(p).AgentPort?
    ensures a.Target(p).id in g
  {
    hide Relaxed, AgentBijection, Net.WellFormed;
    RelaxedParts(a, a, g);
    TargetLive(a, p);
    BijectionAt(a, a, g, a.Target(p).id);
  }

  lemma PlainEnd(g: Mapping, s: PortRef, t: PortRef)
    requires EndAgrees(g, s, t, false) && (s == DISCONNECTED || (s.AgentPort? && s.id in g))
    ensures t == MapPort(g, s) && (t.AgentPort? || t == DISCONNECTED)
  {}

  lemma NotNamed(a: Net, p: PortRef)
    requires a.Target(p).AgentPort? || a.Target(p) == DISCONNECTED
    ensures !OnInterface(a, p)
  {}

  // ----------------------------------------------------------------------- the theorem

  lemma IdentityRelaxed(a: Net) returns (f: Mapping)
    requires a.WellFormed()
    ensures Relaxed(a, a, f) && GraphIsomorphic(a, a)
  {
    hide AgentBijection, Names, Relabel, KeepsNames;
    f := Identity(a);
    var h := SameNames(Names(a));
    IdentityBijection(a);
    forall p | a.IsPort(p)
      ensures a.Target(MapPort(f, p)) == Relabel(f, h, a.Target(p))
      ensures EndAgrees(f, a.Target(p), a.Target(MapPort(f, p)), false)
    {
      IdentityWire(a, f, h, p);
    }
    MakeGraphIsomorphic(a, a, f, h);
  }

  lemma IdentityWire(a: Net, f: Mapping, h: map<nat, nat>, p: PortRef)
    requires a.WellFormed() && f == Identity(a) && KeepsNames(h, Names(a)) && a.IsPort(p)
    ensures a.Target(MapPort(f, p)) == Relabel(f, h, a.Target(p))
    ensures EndAgrees(f, a.Target(p), a.Target(MapPort(f, p)), false)
  {
    hide Names, KeepsNames;
    if a.Target(p).AgentPort? { TargetLive(a, p); } else { KeptName(h, Names(a), a.Target(p).name); }
  }

  lemma MovedSearch(a: Net, g: Mapping)
    requires Relaxed(a, a, g)
    ensures SameSearch(Setup(a, a, false), Setup(a, Moved(a, g), false))
  {
    var b := Moved(a, g);
    forall p ensures Alike(a.Target(p), b.Target(p)) { MovedAlike(a, g, p); }
    SameGroups(a, b, a.arena);
  }

  lemma SameGroups(a: Net, b: Net, k: nat)
    requires b.agents == a.agents
    ensures Groups(b, k) == Groups(a, k)
  {
    forall s ensures Members(b, s, k) == Members(a, s, k) { SameMembers(a, b, s, k); }
  }

  lemma {:induction false} SameMembers(a: Net, b: Net, s: Symbol, k: nat)
    requires b.agents == a.agents
    ensures Members(b, s, k) == Members(a, s, k)
  {
    if k > 0 { SameMembers(a, b, s, k - 1); }
  }

  /** The one bijection found for a net against itself cannot serve both that net and its
      moved form, unless `g` keeps the names apart and together. */
  lemma MovedNeedsNames(a: Net, g: Mapping, k: Mapping)
    requires Relaxed(a, a, g) && Relaxed(a, a, k)
    requires NamesCorrespond(a, a, k) && NamesCorrespond(a, Moved(a, g), k)
    ensures NamesCorrespond(a, a, g)
  {
    hide Relaxed, Moved, MapPort, OnInterface;
    forall u, v | OnInterface(a, u) && OnInterface(a, v)
      ensures a.Target(u) == a.Target(v) <==> a.Target(MapPort(g, u)) == a.Target(MapPort(g, v))
    {
      NamesAt(a, g, k, u, v);
    }
  }

  lemma NamesAt(a: Net, g: Mapping, k: Mapping, u: PortRef, v: PortRef)
    requires Relaxed(a, a, g) && Relaxed(a, a, k) && OnInterface(a, u) && OnInterface(a, v)
    requires NamesCorrespond(a, a, k) && NamesCorrespond(a, Moved(a, g), k)
    ensures a.Target(u) == a.Target(v) <==> a.Target(MapPort(g, u)) == a.Target(MapPort(g, v))
  {
    hide Relaxed, Moved, MapPort, OnInterface, Behind, NamesCorrespond;
    var b, gu, gv := Moved(a, g), MapPort(g, u), MapPort(g, v);
    BehindImage(a, g, u);
    BehindImage(a, g, v);
    var p, q := Behind(k, gu), Behind(k, gv);
    BehindPort(a, k, gu);
    BehindPort(a, k, gv);
    Corresponds(a, a, k, p, q);
    Corresponds(a, b, k, p, q);
    MovedTarget(a, g, gu);
    MovedTarget(a, g, gv);
  }

  lemma Corresponds(a: Net, b: Net, k: Mapping, p: PortRef, q: PortRef)
    requires NamesCorrespond(a, b, k) && OnInterface(a, p) && OnInterface(a, q)
    ensures a.Target(p) == a.Target(q) <==> b.Target(MapPort(k, p)) == b.Target(MapPort(k, q))
  {}

  /** If both a net and its moved form are accepted, the mapping was harmless. */
  lemma MovedAccepted(a: Net, g: Mapping)
    requires a.WellFormed() && Relaxed(a, a, g) && Accepted(a, a) && Accepted(a, Moved(a, g))
    ensures NamesCorrespond(a, a, g)
  {
    hide Relaxed, Moved, NamesCorrespond, Respects, AgentBijection, Setup, Search, SameSearch;
    var P := Setup(a, a, false);
    MovedSearch(a, g);
    SameAnswer(P, Setup(a, Moved(a, g), false), 0, map[]);
    var k := Search(P, 0, map[]).value;
    FoundRelaxed(a, k);
    MovedNeedsNames(a, g, k);
  }

  lemma FoundRelaxed(a: Net, k: Mapping)
    requires a.WellFormed() && Setup(a, a, false).Searchable() && Search(Setup(a, a, false), 0, map[]) == Some(k)
    ensures Relaxed(a, a, k)
  {
    hide AgentBijection, Relaxed, Respects, Ready, Search;
    SetupReady(a, a, false);
    SearchDecides(Setup(a, a, false));
    RelaxedRespects(a, a, k);
  }

  /** Every net isomorphic to `a` is accepted. */
  ghost predicate MissesNothing(a: Net) {
    forall b: Net :: b.WellFormed() && GraphIsomorphic(a, b) ==> Accepted(a, b)
  }

  /** The checker misses nothing for `a` exactly when every label-blind mapping of `a` onto
      itself keeps the ports of each name together and those of different names apart. */
  lemma ExactlyTolerant(a: Net)
    requires a.WellFormed()
    ensures MissesNothing(a) <==> Tolerant(a)
  {
    hide Accepted, GraphIsomorphic, Relaxed, NamesCorrespond, Moved, Net.WellFormed;
    if Tolerant(a) {
      forall b: Net | b.WellFormed() && GraphIsomorphic(a, b) ensures Accepted(a, b) { Exact(a, b); }
    }
    if MissesNothing(a) {
      var f := IdentityRelaxed(a);
      assert Accepted(a, a);
      forall g | Relaxed(a, a, g) ensures NamesCorrespond(a, a, g) {
        MovedWellFormed(a, g);
        MovedIsomorphic(a, g);
        assert Accepted(a, Moved(a, g));
        MovedAccepted(a, g);
      }
    }
  }
}
