/** What an accepted stream becomes, independently of how it was cut into batches. */
module AssemblerWires {
  import opened Nets
  import opened Assembler
  import opened AssemblerExact

  datatype Wire = Wire(p: PortRef, q: PortRef)

  function WireOf(d: Directive): Wire {
    match d
    case Resolved(p, q) => Wire(p, q)
    case Pending(p, q) => Wire(p, q)
    case FreePortInterface(p, name) => Wire(p, FreePort(name))
  }

  function WiresIn(ds: seq<Directive>): (ws: seq<Wire>)
    ensures |ws| == |ds|
  {
    if ds == [] then [] else WiresIn(ds[..|ds| - 1]) + [WireOf(ds[|ds| - 1])]
  }

  /** All wires of a stream, in the order of its directives. */
  function Wires(stream: seq<Batch>): seq<Wire> {
    if stream == [] then [] else Wires(stream[..|stream| - 1]) + WiresIn(stream[|stream| - 1].connections)
  }

  /** All agents of a stream. */
  function Symbols(stream: seq<Batch>): SparseNet {
    if stream == [] then BLANK else Introduce(Symbols(stream[..|stream| - 1]), stream[|stream| - 1].agents)
  }

  /** The port table and the redex queue after plugging a list of wires in order. */
  function Ports(ws: seq<Wire>): map<PortRef, PortRef> {
    if ws == [] then map[]
    else
      var w := ws[|ws| - 1];
      var m := Ports(ws[..|ws| - 1])[w.p := w.q];
      if w.q.AgentPort? then m[w.q := w.p] else m
  }

  predicate Principal(w: Wire) {
    w.p.AgentPort? && w.q.AgentPort? && w.p.port == 0 && w.q.port == 0
  }

  function Redexes(ws: seq<Wire>): seq<(AgentId, AgentId)> {
    if ws == [] then []
    else
      var w := ws[|ws| - 1];
      Redexes(ws[..|ws| - 1]) + if Principal(w) then [(w.p.id, w.q.id)] else []
  }

  // ------------------------------------------------------------- proper streams

  /** A net of these agents, not wired yet. */
  function Unwired(agents: map<AgentId, Symbol>): Net {
    EMPTY.(agents := agents)
  }

  predicate Legal(agents: map<AgentId, Symbol>, w: Wire) {
    var n := Unwired(agents);
    n.IsPort(w.p) && (n.IsPort(w.q) || (w.q.FreePort? && w.q != DISCONNECTED))
  }

  function Ends(w: Wire): set<PortRef> {
    if w.q.AgentPort? then {w.p, w.q} else {w.p}
  }

  /** No port occurs in two directives, or twice in one. */
  ghost predicate Linear(ws: seq<Wire>) {
    && (forall w :: w in ws ==> multiset(ws)[w] == 1 && w.p != w.q)
    && (forall v, w :: v in ws && w in ws && v != w ==> Ends(v) !! Ends(w))
  }

  /** No agent is introduced twice. */
  ghost predicate UniqueIds(stream: seq<Batch>) {
    && (forall k :: 0 <= k < |stream| ==> Ids(stream[k]) !! Arrived(stream[..k]))
    && (forall k, i, j :: 0 <= k < |stream| && 0 <= i < j < |stream[k].agents| ==>
          stream[k].agents[i].0 != stream[k].agents[j].0)
  }

  ghost predicate AllLegal(agents: map<AgentId, Symbol>, ws: seq<Wire>) {
    forall w :: w in ws ==> Legal(agents, w)
  }

  ghost predicate Proper(stream: seq<Batch>) {
    AllTyped(stream) && UniqueIds(stream) && Linear(Wires(stream)) && AllLegal(Symbols(stream).agents, Wires(stream))
  }

  // -------------------------------------------------- order of wiring is immaterial

  /** The table `m` carries wire `w` at both its ends. */
  predicate Carries(m: map<PortRef, PortRef>, w: Wire) {
    && w.p in m && m[w.p] == w.q
    && (w.q.AgentPort? ==> w.q in m && m[w.q] == w.p)
  }

  function Add(m: map<PortRef, PortRef>, w: Wire): map<PortRef, PortRef> {
    if w.q.AgentPort? then m[w.p := w.q][w.q := w.p] else m[w.p := w.q]
  }

  lemma AddCarries(m: map<PortRef, PortRef>, w: Wire, v: Wire)
    requires w.p != w.q
    ensures Carries(Add(m, w), w)
    ensures Carries(m, v) && Ends(v) !! Ends(w) ==> Carries(Add(m, w), v)
  {
    assert v.p in Ends(v) && (v.q.AgentPort? ==> v.q in Ends(v));
    assert w.p in Ends(w) && (w.q.AgentPort? ==> w.q in Ends(w));
  }

  ghost predicate HasEnd(ws: seq<Wire>, p: PortRef) {
    exists w :: w in ws && p in Ends(w)
  }

  lemma {:induction false} PortsOfLinear(ws: seq<Wire>)
    requires Linear(ws)
    ensures forall w :: w in ws ==> Carries(Ports(ws), w)
    ensures forall p :: p in Ports(ws) ==> HasEnd(ws, p)
  {
    hide Carries, Ends;
    if ws != [] {
      var k := |ws| - 1;
      var rest, w := ws[..k], ws[k];
      assert ws == rest + [w];
      LinearRest(rest, w);
      PortsOfLinear(rest);
      assert w in ws;
      assert Ports(ws) == Add(Ports(rest), w);
      forall v | v in ws ensures Carries(Ports(ws), v) { AddCarries(Ports(rest), w, v); }
      forall p | p in Ports(ws) ensures HasEnd(ws, p) {
        if p in Ports(rest) {
          var v :| v in rest && p in Ends(v);
          assert v in ws;
        } else {
          AddKeys(Ports(rest), w, p);
        }
      }
    }
  }

  lemma AddKeys(m: map<PortRef, PortRef>, w: Wire, p: PortRef)
    requires p in Add(m, w)
    ensures p in m || p in Ends(w)
  {}

  lemma LinearRest(rest: seq<Wire>, w: Wire)
    requires Linear(rest + [w])
    ensures Linear(rest) && w !in rest
  {
    assert multiset(rest + [w]) == multiset(rest) + multiset{w};
    assert w in rest + [w];
    forall v | v in rest ensures v in rest + [w] && multiset(rest)[v] == 1 && v.p != v.q {
      assert v in rest + [w];
      assert v in multiset(rest);
    }
  }

  lemma LinearPermuted(ws: seq<Wire>, vs: seq<Wire>)
    requires Linear(ws) && multiset(ws) == multiset(vs)
    ensures Linear(vs)
    ensures forall w :: w in ws <==> w in vs
  {
    forall w ensures w in ws <==> w in vs {
      assert w in ws <==> w in multiset(ws);
      assert w in vs <==> w in multiset(vs);
    }
  }

  lemma PortsPermuted(ws: seq<Wire>, vs: seq<Wire>)
    requires Linear(ws) && multiset(ws) == multiset(vs)
    ensures Ports(ws) == Ports(vs)
  {
    LinearPermuted(ws, vs);
    SamePorts(ws, vs);
    SamePorts(vs, ws);
    assert Ports(ws).Keys == Ports(vs).Keys;
  }

  lemma CarriesDetermines(m: map<PortRef, PortRef>, l: map<PortRef, PortRef>, w: Wire, p: PortRef)
    requires Carries(m, w) && Carries(l, w) && p in Ends(w)
    ensures p in m && p in l && m[p] == l[p]
  {}

  lemma SamePorts(ws: seq<Wire>, vs: seq<Wire>)
    requires Linear(ws) && Linear(vs)
    requires forall w :: w in ws <==> w in vs
    ensures forall p :: p in Ports(ws) ==> p in Ports(vs) && Ports(ws)[p] == Ports(vs)[p]
  {
    hide Linear, Ports, Carries, Ends;
    PortsOfLinear(ws);
    PortsOfLinear(vs);
    forall p | p in Ports(ws) ensures p in Ports(vs) && Ports(ws)[p] == Ports(vs)[p] {
      assert HasEnd(ws, p);
      var w :| w in ws && p in Ends(w);
      assert w in vs;
      CarriesDetermines(Ports(ws), Ports(vs), w, p);
    }
  }

  lemma {:induction false} RedexesSplit(us: seq<Wire>, vs: seq<Wire>)
    ensures Redexes(us + vs) == Redexes(us) + Redexes(vs)
  {
    if vs == [] {
      assert us + vs == us;
    } else {
      var k := |vs| - 1;
      assert (us + vs)[..|us + vs| - 1] == us + vs[..k];
      RedexesSplit(us, vs[..k]);
    }
  }

  lemma {:induction false} RedexesPermuted(ws: seq<Wire>, vs: seq<Wire>)
    requires multiset(ws) == multiset(vs)
    ensures multiset(Redexes(ws)) == multiset(Redexes(vs))
    decreases |ws|
  {
    if ws == [] {
      assert |multiset(vs)| == |vs|;
    } else {
      var k := |ws| - 1;
      var w := ws[k];
      assert ws == ws[..k] + [w];
      assert w in multiset(vs);
      var i :| 0 <= i < |vs| && vs[i] == w;
      var rest := vs[..i] + vs[i + 1..];
      assert vs == vs[..i] + [w] + vs[i + 1..];
      assert multiset(rest) + multiset{w} == multiset(vs);
      assert multiset(ws[..k]) + multiset{w} == multiset(ws);
      assert multiset(ws[..k]) == multiset(ws) - multiset{w};
      assert multiset(rest) == multiset(vs) - multiset{w};
      RedexesPermuted(ws[..k], rest);
      RedexesSplit(vs[..i], vs[i + 1..]);
      RedexesSplit(vs[..i] + [w], vs[i + 1..]);
      RedexesSplit(vs[..i], [w]);
    }
  }

  // ------------------------------------------------------------ wires of a wiring

  ghost predicate DistinctSources(ws: seq<Wire>) {
    forall i, j :: 0 <= i < j < |ws| ==> ws[i].p != ws[j].p
  }

  /** Wires that agree with one symmetric wiring and are each listed from one side only. */
  ghost predicate OneSided(ws: seq<Wire>, wiring: PortRef -> PortRef) {
    && DistinctSources(ws)
    && (forall w :: w in ws ==> w.p != w.q && wiring(w.p) == w.q && (w.q.AgentPort? ==> wiring(w.q) == w.p))
    && (forall v, w :: v in ws && w in ws && w.q.AgentPort? ==> v.p != w.q)
  }

  lemma OneSidedLinear(ws: seq<Wire>, wiring: PortRef -> PortRef)
    requires OneSided(ws, wiring)
    ensures Linear(ws)
  {
    forall w | w in ws ensures multiset(ws)[w] == 1 { CountOnce(ws, w); }
    forall v, w | v in ws && w in ws && v != w ensures Ends(v) !! Ends(w) {
      SourcesApart(ws, v, w);
    }
  }

  lemma SourcesApart(ws: seq<Wire>, v: Wire, w: Wire)
    requires DistinctSources(ws) && v in ws && w in ws && v != w
    ensures v.p != w.p
  {
    var i :| 0 <= i < |ws| && ws[i] == v;
    var j :| 0 <= j < |ws| && ws[j] == w;
  }

  lemma {:induction false} CountOnce(ws: seq<Wire>, w: Wire)
    requires DistinctSources(ws) && w in ws
    ensures multiset(ws)[w] == 1
  {
    var k := |ws| - 1;
    assert ws == ws[..k] + [ws[k]];
    assert DistinctSources(ws[..k]);
    if w in ws[..k] {
      CountOnce(ws[..k], w);
      assert w != ws[k];
    } else {
      assert w == ws[k];
    }
  }

  lemma DistinctConcat(us: seq<Wire>, vs: seq<Wire>)
    requires DistinctSources(us) && DistinctSources(vs)
    requires forall u, v :: u in us && v in vs ==> u.p != v.p
    ensures DistinctSources(us + vs)
  {
    var ws := us + vs;
    forall i, j | 0 <= i < j < |ws| ensures ws[i].p != ws[j].p {
      assert i < |us| ==> ws[i] == us[i] && us[i] in us;
      assert j >= |us| ==> ws[j] == vs[j - |us|] && vs[j - |us|] in vs;
    }
  }

  lemma {:induction false} WiresInConcat(ds: seq<Directive>, es: seq<Directive>)
    ensures WiresIn(ds + es) == WiresIn(ds) + WiresIn(es)
  {
    if es == [] {
      assert ds + es == ds;
    } else {
      var k := |es| - 1;
      assert (ds + es)[..|ds + es| - 1] == ds + es[..k];
      WiresInConcat(ds, es[..k]);
    }
  }

  /** A pair is queued as often as its principal wire is listed. */
  lemma {:induction false} RedexCount(ws: seq<Wire>, a: AgentId, b: AgentId)
    ensures multiset(Redexes(ws))[(a, b)] == multiset(ws)[Wire(AgentPort(a, 0), AgentPort(b, 0))]
  {
    if ws != [] {
      var k := |ws| - 1;
      assert ws == ws[..k] + [ws[k]];
      RedexCount(ws[..k], a, b);
    }
  }
}
