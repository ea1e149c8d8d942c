/** Encoded numerals are well formed and read back as Church numerals. */
module ChurchTerms {
  import opened Nets
  import opened Building
  import opened Church
  import opened Readback
  import Lambda

  // ------------------------------------------------------------------ well-formedness

  lemma SymbolOf(n: Net, k: nat, id: AgentId)
    requires Growing(n) && n.nextId <= id < n.nextId + ChurchSize(k)
    ensures var b := n.nextId;
      Has(Encode(n, k), id, if id < b + 2 then Con else if k == 0 then Era else if id < b + 2 + k then Con else Dup)
  {
    hide Growing, Encode;
    EncodeFrame(n, k);
    var i := id - n.nextId;
    assert Encode(n, k).agents[n.nextId + i] == ChurchSyms(k)[i];
  }

  lemma NewPortLegal(n: Net, k: nat, p: PortRef)
    requires Growing(n) && p.AgentPort? && p.id >= n.nextId
    ensures Encode(n, k).IsPort(p) <==> NewPort(n.nextId, k, p)
  {
    hide Growing, Encode, ChurchSyms;
    EncodeFrame(n, k);
    OldIds(n);
    if p.id < n.nextId + ChurchSize(k) { SymbolOf(n, k, p.id); }
  }

  lemma WiringSymmetric(b: AgentId, k: nat, q: PortRef)
    requires NewPort(b, k, q) && q != P(b, 0)
    ensures Wiring(b, k, q).AgentPort? && Wiring(b, k, Wiring(b, k, q)) == q
  {
    hide ChurchJoints, Wiring;
    PortJoined(b, k, q);
    JointsFit(b, k);
  }

  lemma WiringNew(b: AgentId, k: nat, q: PortRef)
    requires NewPort(b, k, q) && q != P(b, 0)
    ensures NewPort(b, k, Wiring(b, k, q))
  {
    hide ChurchJoints;
    PortJoined(b, k, q);
    JointsFit(b, k);
  }

  /** Encoding keeps the net well formed and wires every new port but the outer lambda's. */
  lemma EncodeKeeps(n: Net, k: nat)
    requires Growing(n) && n.WellFormed()
    ensures var r, b := Encode(n, k), n.nextId;
      && r.WellFormed() && Extends(n, r)
      && r.IsPort(P(b, 0)) && r.Target(P(b, 0)) == DISCONNECTED
      && (forall p :: r.IsPort(p) && p.id >= b && p != P(b, 0) ==> r.Target(p).AgentPort?)
      && (forall p: PortRef :: p.AgentPort? && p.id < b ==> r.Target(p) == n.Target(p))
  {
    hide Growing, Encode, Wiring, Net.WellFormed, NewPort, ChurchSyms;
    var r, b := Encode(n, k), n.nextId;
    EncodeFrame(n, k);
    OldIds(n);
    forall p | r.IsPort(p)
      ensures p.id >= b && p != P(b, 0) ==> r.Target(p).AgentPort?
      ensures r.Target(p).AgentPort? ==> r.IsPort(r.Target(p)) && r.Target(r.Target(p)) == p
    {
      PortKept(n, k, p);
    }
    forall p: PortRef | p.AgentPort? && p.id < b ensures r.Target(p) == n.Target(p) { OldKept(n, k, p); }
    RootKept(n, k);
    ArenaKept(r);
    SymmetricWellFormed(r);
  }

  lemma OldKept(n: Net, k: nat, p: PortRef)
    requires Growing(n) && p.AgentPort? && p.id < n.nextId
    ensures Encode(n, k).Target(p) == n.Target(p)
  {
    hide Growing, Encode;
    EncodeTarget(n, k, p);
  }

  lemma RootKept(n: Net, k: nat)
    requires Growing(n)
    ensures Encode(n, k).IsPort(P(n.nextId, 0)) && Encode(n, k).Target(P(n.nextId, 0)) == DISCONNECTED
  {
    hide Growing, Encode;
    EncodeTarget(n, k, P(n.nextId, 0));
    SymbolOf(n, k, n.nextId);
    RootOpen(n.nextId, k);
  }

  lemma PortKept(n: Net, k: nat, p: PortRef)
    requires Growing(n) && n.WellFormed() && Encode(n, k).IsPort(p)
    ensures var r := Encode(n, k);
      && (p.id >= n.nextId && p != P(n.nextId, 0) ==> r.Target(p).AgentPort?)
      && (r.Target(p).AgentPort? ==> r.IsPort(r.Target(p)) && r.Target(r.Target(p)) == p)
  {
    hide Encode, Wiring, NewPort, ChurchSyms;
    var r, b := Encode(n, k), n.nextId;
    EncodeTarget(n, k, p);
    if p.id >= b {
      NewPortLegal(n, k, p);
      if p == P(b, 0) {
        RootKept(n, k);
      } else {
        var q := Wiring(b, k, p);
        WiringSymmetric(b, k, p);
        WiringNew(b, k, p);
        EncodeTarget(n, k, q);
        NewPortRange(b, k, q);
        NewPortLegal(n, k, q);
      }
    } else {
      EncodeFrame(n, k);
      OldKept(n, k, p);
      var q := n.Target(p);
      if q.AgentPort? {
        assert n.IsPort(q) && n.Target(q) == p;
        OldKept(n, k, q);
      }
    }
  }

  lemma NewPortRange(b: AgentId, k: nat, q: PortRef)
    requires NewPort(b, k, q)
    ensures q.AgentPort? && q.id >= b
  {}

  lemma ArenaKept(r: Net)
    requires Growing(r)
    ensures forall id :: id in r.agents ==> id < r.arena
  {}

  // ------------------------------------------------------------------------ reading

  function Copies(b: AgentId, k: nat, i: nat): Tree {
    Copy(DupId(b, k, i), if i == 0 then Var(b) else Copies(b, k, i - 1))
  }

  function FunctionTree(b: AgentId, k: nat, i: nat): Tree
    requires i < k
  {
    if k == 1 then Var(b) else if i < k - 1 then Copies(b, k, i) else Copies(b, k, k - 2)
  }

  function BodyTree(b: AgentId, k: nat, i: nat): Tree
    requires i <= k
    decreases k - i
  {
    if i == k then Var(b + 1) else App(AppId(b, i), FunctionTree(b, k, i), BodyTree(b, k, i + 1))
  }

  function ChurchTree(b: AgentId, k: nat): Tree {
    Lam(b, Lam(b + 1, BodyTree(b, k, 0)))
  }

  lemma {:induction false} CopiesRead(n: Net, k: nat, i: nat, port: nat)
    requires Growing(n) && k >= 2 && i < k - 1 && (port == 1 || port == 2)
    ensures var b := n.nextId; Reads(Encode(n, k), {b, b + 1}, P(DupId(b, k, i), port), Copies(b, k, i))
  {
    hide Growing, Encode;
    var b, r := n.nextId, Encode(n, k);
    SymbolOf(n, k, DupId(b, k, i));
    SymbolOf(n, k, b);
    EncodeTarget(n, k, P(DupId(b, k, i), 0));
    if i > 0 { CopiesRead(n, k, i - 1, 2); }
  }

  lemma FunctionRead(n: Net, k: nat, i: nat)
    requires Growing(n) && i < k
    ensures var b := n.nextId;
      Reads(Encode(n, k), {b, b + 1}, Encode(n, k).Target(P(AppId(b, i), 0)), FunctionTree(b, k, i))
  {
    hide Growing, Encode, Copies;
    var b := n.nextId;
    EncodeTarget(n, k, P(AppId(b, i), 0));
    SymbolOf(n, k, b);
    if k >= 2 {
      if i < k - 1 { CopiesRead(n, k, i, 1); } else { CopiesRead(n, k, k - 2, 2); }
    }
  }

  lemma {:induction false} BodyRead(n: Net, k: nat, i: nat)
    requires Growing(n) && i <= k
    ensures var b := n.nextId;
      Reads(Encode(n, k), {b, b + 1}, if i == k then P(b + 1, 1) else P(AppId(b, i), 1), BodyTree(b, k, i))
    decreases k - i
  {
    hide Growing, Encode, FunctionTree;
    var b := n.nextId;
    SymbolOf(n, k, b + 1);
    if i < k {
      BodyRead(n, k, i + 1);
      FunctionRead(n, k, i);
      SymbolOf(n, k, AppId(b, i));
      EncodeTarget(n, k, P(AppId(b, i), 2));
    }
  }

  lemma NumeralRead(n: Net, k: nat)
    requires Growing(n)
    ensures Reads(Encode(n, k), {}, P(n.nextId, 0), ChurchTree(n.nextId, k))
  {
    hide Growing, Encode, BodyTree;
    var b, r := n.nextId, Encode(n, k);
    BodyRead(n, k, 0);
    SymbolOf(n, k, b);
    SymbolOf(n, k, b + 1);
    EncodeTarget(n, k, P(b, 2));
    EncodeTarget(n, k, P(b + 1, 2));
    assert {} + {b} == {b} && {b} + {b + 1} == {b, b + 1};
    assert Reads(r, {b}, P(b + 1, 0), Lam(b + 1, BodyTree(b, k, 0)));
  }

  lemma {:induction false} CopiesTerm(b: AgentId, k: nat, i: nat)
    ensures TermOf(Copies(b, k, i), [b + 1, b]) == Lambda.V(1)
  {
    if i > 0 { CopiesTerm(b, k, i - 1); } else { DepthTwo(b); }
  }

  lemma DepthTwo(b: AgentId)
    ensures Depth([b + 1, b], b + 1) == 0 && Depth([b + 1, b], b) == 1
  {
    assert [b + 1, b][1..] == [b];
  }

  lemma {:induction false} BodyTerm(b: AgentId, k: nat, i: nat)
    requires i <= k
    ensures TermOf(BodyTree(b, k, i), [b + 1, b]) == Lambda.Iter(Lambda.V(1), k - i, Lambda.V(0))
    decreases k - i
  {
    DepthTwo(b);
    if i < k {
      BodyTerm(b, k, i + 1);
      if k >= 2 { CopiesTerm(b, k, if i < k - 1 then i else k - 2); }
    }
  }

  /** The encoding of `k`, entered at its outer lambda, is the Church numeral `k`. */
  lemma EncodeDenotes(n: Net, k: nat)
    requires Growing(n)
    ensures Denotes(Encode(n, k), P(n.nextId, 0), Lambda.Church(k))
  {
    hide Growing, Encode, BodyTree;
    var b := n.nextId;
    NumeralRead(n, k);
    BodyTerm(b, k, 0);
    assert [b + 1] + ([b] + []) == [b + 1, b];
    assert TermOf(Lam(b + 1, BodyTree(b, k, 0)), [b] + []) == Lambda.Church(k).body;
    assert TermOf(ChurchTree(b, k), []) == Lambda.Church(k);
  }
}
