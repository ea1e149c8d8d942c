/** Mint-then-wire: a delta-mode worker fulfils the coordinator's commutation requests. */
module Commutation {
  import opened Nets
  import NetOps
  import opened Building
  import Reducer

  const SLOT_MARKER_BASE: nat := U32_MAX - 10_000

  /** Wire port `port` of the agent minted for `slot` to `target`; a target id from the
      marker base on stands for the agent of another slot. */
  datatype Hint = Hint(slot: nat, port: nat, target: PortRef)

  /** A request, with its id taken apart into the commutation and its first slot. */
  datatype Request = Request(cid: nat, slot: nat, symbols: seq<Symbol>, wiring: seq<Hint>)

  datatype Minted = Minted(cid: nat, slot: nat, id: AgentId)

  datatype Fault =
    | ZeroArity
    | DuplicateSourcePort(slot: nat, port: nat)
    | SrcSlotOutOfRange(slot: nat)
    | SrcPortOutOfRange(slot: nat, port: nat)
    | TargetSiblingOutOfRange(sibling: nat)
    | ReservedForFuture(border: nat)

  // ---------------------------------------------------------- what a good request is

  predicate GoodSource(symbols: seq<Symbol>, h: Hint) {
    h.slot < |symbols| && h.port < TotalPorts(symbols[h.slot])
  }

  predicate GoodTarget(symbols: seq<Symbol>, t: PortRef) {
    t.AgentPort? && (t.id >= SLOT_MARKER_BASE ==> t.id - SLOT_MARKER_BASE < |symbols|)
  }

  ghost predicate DistinctSources(wiring: seq<Hint>) {
    forall i, j :: 0 <= i < j < |wiring| ==> wiring[i].slot != wiring[j].slot || wiring[i].port != wiring[j].port
  }

  /** Something to mint, distinct in-range sources, legal targets. */
  ghost predicate GoodRequest(pc: Request) {
    && pc.symbols != [] && DistinctSources(pc.wiring)
    && forall i :: 0 <= i < |pc.wiring| ==> GoodSource(pc.symbols, pc.wiring[i]) && GoodTarget(pc.symbols, pc.wiring[i].target)
  }

  // ------------------------------------------------------------------------ minting

  /** The ids the new agents get. */
  function MintIds(n: Net, symbols: seq<Symbol>): (ids: seq<AgentId>)
    ensures |ids| == |symbols|
  {
    if symbols == [] then []
    else
      var k := |symbols| - 1;
      MintIds(n, symbols[..k]) + [NetOps.NextFree(CreateAll(n, symbols[..k]))]
  }

  /** No freed id will be handed out again. */
  predicate FreshOnly(n: Net) {
    !n.recycling || n.freeList == []
  }

  lemma {:induction false} MintFresh(n: Net, symbols: seq<Symbol>)
    requires FreshOnly(n)
    ensures var m := CreateAll(n, symbols);
      FreshOnly(m) && m.nextId == n.nextId + |symbols| && m.ports == n.ports && m.redexes == n.redexes
    ensures forall i :: 0 <= i < |symbols| ==> MintIds(n, symbols)[i] == n.nextId + i
  {
    if symbols != [] { MintFresh(n, symbols[..|symbols| - 1]); }
  }

  /** Minted ids are the next ones of the counter exactly when nothing is recycled. */
  lemma MintConsecutive(n: Net, symbols: seq<Symbol>)
    requires NetOps.AllocOk(n) && symbols != []
    ensures (forall i :: 0 <= i < |symbols| ==> MintIds(n, symbols)[i] == n.nextId + i) <==> FreshOnly(n)
  {
    if FreshOnly(n) {
      MintFresh(n, symbols);
    } else {
      MintFirst(n, symbols);
    }
  }

  lemma {:induction false} MintFirst(n: Net, symbols: seq<Symbol>)
    requires symbols != []
    ensures MintIds(n, symbols)[0] == NetOps.NextFree(n)
  {
    if |symbols| > 1 { MintFirst(n, symbols[..|symbols| - 1]); }
  }

  // ------------------------------------------------------------------------- wiring

  function Resolve(ids: seq<AgentId>, t: PortRef): PortRef
    requires GoodTarget(seq(|ids|, _ => Con), t)
  {
    if t.id >= SLOT_MARKER_BASE then AgentPort(ids[t.id - SLOT_MARKER_BASE], t.port) else t
  }

  /** The wire a good hint asks for. */
  function Link(ids: seq<AgentId>, h: Hint): Joint
    requires h.slot < |ids| && GoodTarget(seq(|ids|, _ => Con), h.target)
  {
    (AgentPort(ids[h.slot], h.port), Resolve(ids, h.target))
  }

  /** What is wrong with a hint, checked in the source's order. */
  function HintFault(symbols: seq<Symbol>, h: Hint): Option<Fault> {
    if h.slot >= |symbols| then Some(SrcSlotOutOfRange(h.slot))
    else if h.port >= TotalPorts(symbols[h.slot]) then Some(SrcPortOutOfRange(h.slot, h.port))
    else if h.target.FreePort? then Some(ReservedForFuture(h.target.name))
    else if h.target.id >= SLOT_MARKER_BASE && h.target.id - SLOT_MARKER_BASE >= |symbols| then
      Some(TargetSiblingOutOfRange(h.target.id - SLOT_MARKER_BASE))
    else None
  }

  /** The wires of the hints before the first faulty one. */
  function Links(symbols: seq<Symbol>, ids: seq<AgentId>, hints: seq<Hint>): seq<Joint>
    requires |ids| == |symbols|
  {
    if hints == [] || FirstFault(symbols, hints[..|hints| - 1]).Some? then
      (if hints == [] then [] else Links(symbols, ids, hints[..|hints| - 1]))
    else
      var h := hints[|hints| - 1];
      Links(symbols, ids, hints[..|hints| - 1]) + if HintFault(symbols, h).None? then [Link(ids, h)] else []
  }

  function FirstFault(symbols: seq<Symbol>, hints: seq<Hint>): Option<Fault> {
    if hints == [] then None
    else
      var f := FirstFault(symbols, hints[..|hints| - 1]);
      if f.Some? then f else HintFault(symbols, hints[|hints| - 1])
  }

  /** The first hint whose source was named before. */
  function Duplicate(hints: seq<Hint>): Option<Fault> {
    if hints == [] then None
    else
      var k := |hints| - 1;
      var f := Duplicate(hints[..k]);
      if f.Some? then f
      else if exists i :: 0 <= i < k && hints[i].slot == hints[k].slot && hints[i].port == hints[k].port then
        Some(DuplicateSourcePort(hints[k].slot, hints[k].port))
      else None
  }

  /** The error of a request, if any. */
  function RequestFault(pc: Request): Option<Fault> {
    if pc.symbols == [] then Some(ZeroArity)
    else if Duplicate(pc.wiring).Some? then Duplicate(pc.wiring)
    else FirstFault(pc.symbols, pc.wiring)
  }

  /** What is left of the net, error or not. */
  function Fulfil(n: Net, pc: Request): Net {
    var m := CreateAll(n, pc.symbols);
    if pc.symbols == [] || Duplicate(pc.wiring).Some? then m
    else ConnectAll(m, Links(pc.symbols, MintIds(n, pc.symbols), pc.wiring))
  }

  /** One answer per slot, in slot order. */
  function Echo(pc: Request, ids: seq<AgentId>): seq<Minted> {
    seq(|ids|, k requires 0 <= k < |ids| => Minted(pc.cid, pc.slot + k, ids[k]))
  }

  // ------------------------------------------------------------- exactly when it works

  lemma {:induction false} DuplicateExact(hints: seq<Hint>)
    ensures Duplicate(hints).None? <==> DistinctSources(hints)
  {
    if hints != [] {
      var k := |hints| - 1;
      DuplicateExact(hints[..k]);
      if DistinctSources(hints[..k]) && Duplicate(hints).None? {
        forall i, j | 0 <= i < j < |hints| ensures hints[i].slot != hints[j].slot || hints[i].port != hints[j].port {
          if j < k { assert hints[..k][i] == hints[i] && hints[..k][j] == hints[j]; }
        }
      }
    }
  }

  lemma {:induction false} FaultExact(symbols: seq<Symbol>, hints: seq<Hint>)
    ensures FirstFault(symbols, hints).None? <==>
      forall i :: 0 <= i < |hints| ==> GoodSource(symbols, hints[i]) && GoodTarget(symbols, hints[i].target)
  {
    if hints != [] {
      var k := |hints| - 1;
      FaultExact(symbols, hints[..k]);
      assert forall i :: 0 <= i < k ==> hints[..k][i] == hints[i];
    }
  }

  /** A request succeeds exactly when it is good. */
  lemma RequestExact(pc: Request)
    ensures RequestFault(pc).None? <==> GoodRequest(pc)
  {
    DuplicateExact(pc.wiring);
    FaultExact(pc.symbols, pc.wiring);
  }

  // -------------------------------------------------------------- and what is blamed

  /** The hint at `k` names a source that an earlier one names. */
  ghost predicate Repeats(hints: seq<Hint>, k: nat) {
    k < |hints| && exists i :: 0 <= i < k && hints[i].slot == hints[k].slot && hints[i].port == hints[k].port
  }

  /** And it is the first one that does. */
  ghost predicate FirstRepeat(hints: seq<Hint>, k: nat) {
    Repeats(hints, k) && forall j: nat :: j < k ==> !Repeats(hints, j)
  }

  /** What is wrong with a hint: the slot, else the port, else the target. */
  ghost predicate HintBlamed(symbols: seq<Symbol>, h: Hint, f: Fault) {
    if h.slot >= |symbols| then f == SrcSlotOutOfRange(h.slot)
    else if h.port >= TotalPorts(symbols[h.slot]) then f == SrcPortOutOfRange(h.slot, h.port)
    else if h.target.FreePort? then f == ReservedForFuture(h.target.name)
    else f.TargetSiblingOutOfRange? && f.sibling >= |symbols| && h.target.id == SLOT_MARKER_BASE + f.sibling
  }

  /** The hint at `k` is the first bad one. */
  ghost predicate FirstBad(symbols: seq<Symbol>, hints: seq<Hint>, k: nat) {
    && k < |hints|
    && (forall i :: 0 <= i < k ==> GoodSource(symbols, hints[i]) && GoodTarget(symbols, hints[i].target))
    && !(GoodSource(symbols, hints[k]) && GoodTarget(symbols, hints[k].target))
  }

  /** The error `f` is due: nothing to mint, else the first repeated source, else the first bad hint. */
  ghost predicate Blamed(pc: Request, f: Fault) {
    if pc.symbols == [] then f == ZeroArity
    else if !DistinctSources(pc.wiring) then
      exists k: nat :: FirstRepeat(pc.wiring, k) && f == DuplicateSourcePort(pc.wiring[k].slot, pc.wiring[k].port)
    else exists k: nat :: FirstBad(pc.symbols, pc.wiring, k) && HintBlamed(pc.symbols, pc.wiring[k], f)
  }

  lemma {:induction false} DuplicateBlamed(hints: seq<Hint>) returns (k: nat)
    requires Duplicate(hints).Some?
    ensures FirstRepeat(hints, k)
    ensures Duplicate(hints).value == DuplicateSourcePort(hints[k].slot, hints[k].port)
  {
    var l := |hints| - 1;
    var before := hints[..l];
    assert forall j: nat :: j < l ==> (Repeats(hints, j) <==> Repeats(before, j));
    if Duplicate(before).Some? {
      k := DuplicateBlamed(before);
    } else {
      k := l;
      DuplicateExact(before);
      forall j: nat | j < l ensures !Repeats(before, j) {}
    }
  }

  lemma {:induction false} HintFaultBlamed(symbols: seq<Symbol>, hints: seq<Hint>) returns (k: nat)
    requires FirstFault(symbols, hints).Some?
    ensures FirstBad(symbols, hints, k) && HintBlamed(symbols, hints[k], FirstFault(symbols, hints).value)
  {
    var l := |hints| - 1;
    FaultExact(symbols, hints[..l]);
    assert forall i :: 0 <= i < l ==> hints[..l][i] == hints[i];
    if FirstFault(symbols, hints[..l]).Some? { k := HintFaultBlamed(symbols, hints[..l]); } else { k := l; }
  }

  lemma OneFirst(symbols: seq<Symbol>, hints: seq<Hint>, j: nat, k: nat)
    ensures FirstRepeat(hints, j) && FirstRepeat(hints, k) ==> j == k
    ensures FirstBad(symbols, hints, j) && FirstBad(symbols, hints, k) ==> j == k
  {
    hide GoodSource, GoodTarget;
  }

  /** A request fails with `f` exactly when `f` is due. */
  lemma FaultBlamed(pc: Request, f: Fault)
    ensures RequestFault(pc) == Some(f) <==> Blamed(pc, f)
  {
    hide FirstRepeat, FirstBad, Duplicate, FirstFault, DistinctSources, GoodSource, GoodTarget;
    DuplicateExact(pc.wiring);
    if pc.symbols != [] && Duplicate(pc.wiring).Some? {
      var k := DuplicateBlamed(pc.wiring);
      forall j: nat ensures FirstRepeat(pc.wiring, j) ==> j == k { OneFirst([], pc.wiring, j, k); }
    } else if pc.symbols != [] && FirstFault(pc.symbols, pc.wiring).Some? {
      var k := HintFaultBlamed(pc.symbols, pc.wiring);
      forall j: nat ensures FirstBad(pc.symbols, pc.wiring, j) ==> j == k { OneFirst(pc.symbols, pc.wiring, j, k); }
    } else if pc.symbols != [] {
      FaultExact(pc.symbols, pc.wiring);
      forall j: nat ensures !FirstBad(pc.symbols, pc.wiring, j) { NoneBad(pc.symbols, pc.wiring, j); }
    }
  }

  lemma NoneBad(symbols: seq<Symbol>, hints: seq<Hint>, j: nat)
    requires forall i :: 0 <= i < |hints| ==> GoodSource(symbols, hints[i]) && GoodTarget(symbols, hints[i].target)
    ensures !FirstBad(symbols, hints, j)
  {
    hide GoodSource, GoodTarget;
  }

  lemma {:induction false} LinksExact(symbols: seq<Symbol>, ids: seq<AgentId>, hints: seq<Hint>)
    requires |ids| == |symbols| && FirstFault(symbols, hints).None?
    ensures var ws := Links(symbols, ids, hints);
      |ws| == |hints| && forall i :: 0 <= i < |hints| ==>
        GoodSource(symbols, hints[i]) && GoodTarget(symbols, hints[i].target) && ws[i] == Link(ids, hints[i])
  {
    FaultExact(symbols, hints);
    if hints != [] {
      hide GoodSource, GoodTarget, Link;
      var k := |hints| - 1;
      LinksExact(symbols, ids, hints[..k]);
      assert forall i :: 0 <= i < k ==> hints[..k][i] == hints[i];
    }
  }

  /** A good request mints one agent per slot and leaves every port it names where its
      last hint leads. */
  lemma FulfilGood(n: Net, pc: Request, p: PortRef, i: nat)
    requires GoodRequest(pc) && InArena(CreateAll(n, pc.symbols), p) && i <= |pc.wiring|
    requires var ids := MintIds(n, pc.symbols);
      && (forall j :: i <= j < |pc.wiring| ==> !Touches(Link(ids, pc.wiring[j]), p))
      && (i > 0 ==> Touches(Link(ids, pc.wiring[i - 1]), p))
    ensures Fulfil(n, pc).Target(p) ==
      if i == 0 then CreateAll(n, pc.symbols).Target(p)
      else OtherEnd(Link(MintIds(n, pc.symbols), pc.wiring[i - 1]), p)
    ensures Fulfil(n, pc).agents == CreateAll(n, pc.symbols).agents
  {
    hide CreateAll, ConnectAll, MintIds;
    RequestExact(pc);
    var ids := MintIds(n, pc.symbols);
    LinksExact(pc.symbols, ids, pc.wiring);
    LastWriterWins(CreateAll(n, pc.symbols), Links(pc.symbols, ids, pc.wiring), p, i);
  }

  /** A request with nothing to mint changes nothing; one with a repeated source mints
      but wires nothing. */
  lemma FulfilBad(n: Net, pc: Request)
    ensures pc.symbols == [] ==> Fulfil(n, pc) == n && RequestFault(pc) == Some(ZeroArity)
    ensures !DistinctSources(pc.wiring) && FreedIsOpen(n) ==>
      && (forall p :: Fulfil(n, pc).Target(p) == n.Target(p))
      && Fulfil(n, pc).redexes == n.redexes && RequestFault(pc).Some?
  {
    DuplicateExact(pc.wiring);
    if FreedIsOpen(n) { MintKeepsWires(n, pc.symbols); }
  }

  /** The slots of ids that may be handed out again hold no wire. */
  ghost predicate FreedIsOpen(n: Net) {
    forall i, j :: 0 <= i < |n.freeList| && 0 <= j <= 2 ==> n.Target(AgentPort(n.freeList[i], j)) == DISCONNECTED
  }

  /** Minting, with or without recycling, changes no wire. */
  lemma {:induction false} MintKeepsWires(n: Net, symbols: seq<Symbol>)
    requires FreedIsOpen(n)
    ensures var m := CreateAll(n, symbols);
      && (forall p :: m.Target(p) == n.Target(p)) && m.redexes == n.redexes
      && |m.freeList| <= |n.freeList| && m.freeList == n.freeList[..|m.freeList|]
  {
    if symbols != [] {
      var k := |symbols| - 1;
      MintKeepsWires(n, symbols[..k]);
      var m := CreateAll(n, symbols[..k]);
      if m.recycling && m.freeList != [] {
        var id := m.freeList[|m.freeList| - 1];
        assert id == n.freeList[|m.freeList| - 1];
      }
    }
  }

  /** `ids` are new, pairwise different, and carry `symbols`; nothing else changed. */
  ghost predicate NewAgents(before: map<AgentId, Symbol>, after: map<AgentId, Symbol>, ids: seq<AgentId>, symbols: seq<Symbol>) {
    && |ids| == |symbols|
    && (forall i :: 0 <= i < |ids| ==> ids[i] !in before && ids[i] in after && after[ids[i]] == symbols[i])
    && (forall i, j :: 0 <= i < j < |ids| ==> ids[i] != ids[j])
    && (forall id :: id in before ==> id in after && after[id] == before[id])
    && (forall id :: id in after ==> id in before || id in ids)
  }

  lemma NewAgentsMore(before: map<AgentId, Symbol>, after: map<AgentId, Symbol>, ids: seq<AgentId>, symbols: seq<Symbol>,
                      id: AgentId, s: Symbol)
    requires NewAgents(before, after, ids, symbols) && id !in after
    ensures NewAgents(before, after[id := s], ids + [id], symbols + [s])
  {
    forall x | x in after[id := s] ensures x in before || x in ids + [id] {
      assert x == id || x in after;
    }
  }

  lemma NoNewAgents(agents: map<AgentId, Symbol>)
    ensures NewAgents(agents, agents, [], [])
  {}

  /** With or without recycling, minting adds one new agent per requested symbol. */
  lemma {:induction false} MintAgents(n: Net, symbols: seq<Symbol>)
    requires NetOps.AllocOk(n)
    ensures NewAgents(n.agents, CreateAll(n, symbols).agents, MintIds(n, symbols), symbols)
    ensures NetOps.AllocOk(CreateAll(n, symbols))
  {
    hide CreateAll, MintIds, NetOps.AllocOk, NetOps.NextFree, NewAgents;
    if symbols == [] {
      MintNone(n);
      NoNewAgents(n.agents);
    } else {
      var k := |symbols| - 1;
      MintAgents(n, symbols[..k]);
      MintStep(n, symbols);
      var m := CreateAll(n, symbols[..k]);
      NewAgentsMore(n.agents, m.agents, MintIds(n, symbols[..k]), symbols[..k], NetOps.NextFree(m), symbols[k]);
      assert symbols == symbols[..k] + [symbols[k]];
    }
  }

  lemma MintStep(n: Net, symbols: seq<Symbol>)
    requires symbols != []
    ensures var k := |symbols| - 1; var m := CreateAll(n, symbols[..k]); var id := NetOps.NextFree(m);
      && MintIds(n, symbols) == MintIds(n, symbols[..k]) + [id]
      && CreateAll(n, symbols).agents == m.agents[id := symbols[k]]
      && (NetOps.AllocOk(m) ==> id !in m.agents && NetOps.AllocOk(CreateAll(n, symbols)))
  {
    hide NetOps.AllocOk, NetOps.CreateAgent, NetOps.NextFree;
    var m := CreateAll(n, symbols[..|symbols| - 1]);
    CreatedAgents(m, symbols[|symbols| - 1]);
    if NetOps.AllocOk(m) { NetOps.CreateAlloc(m, symbols[|symbols| - 1]); }
  }

  lemma CreatedAgents(m: Net, s: Symbol)
    ensures NetOps.CreateAgent(m, s).agents == m.agents[NetOps.NextFree(m) := s]
  {
  }

  // ------------------------------------------------------------------- as it runs

  /** The sources of the first hints. */
  ghost predicate Seen(seen: set<(nat, nat)>, hints: seq<Hint>) {
    forall a, b :: (a, b) in seen <==> exists i :: 0 <= i < |hints| && hints[i].slot == a && hints[i].port == b
  }

  method FindDuplicate(hints: seq<Hint>) returns (r: Option<Fault>)
    ensures r == Duplicate(hints)
  {
    var seen: set<(nat, nat)> := {};
    for k := 0 to |hints|
      invariant Seen(seen, hints[..k]) && Duplicate(hints[..k]).None?
    {
      var h := hints[k];
      assert hints[..k + 1][..k] == hints[..k];
      if (h.slot, h.port) in seen {
        DuplicateStays(hints, k + 1);
        return Some(DuplicateSourcePort(h.slot, h.port));
      }
      SeenMore(seen, hints, k);
      seen := seen + {(h.slot, h.port)};
    }
    assert hints[..|hints|] == hints;
    r := None;
  }

  lemma SeenMore(seen: set<(nat, nat)>, hints: seq<Hint>, k: nat)
    requires k < |hints| && Seen(seen, hints[..k])
    ensures Seen(seen + {(hints[k].slot, hints[k].port)}, hints[..k + 1])
  {
    var more, now := hints[..k + 1], seen + {(hints[k].slot, hints[k].port)};
    forall a: nat, b: nat
      ensures (a, b) in now <==> exists i :: 0 <= i < |more| && more[i].slot == a && more[i].port == b
    {
      if (a, b) in seen {
        var i :| 0 <= i < k && hints[..k][i].slot == a && hints[..k][i].port == b;
        assert more[i] == hints[..k][i];
      } else if (a, b) in now {
        assert more[k].slot == a && more[k].port == b;
      }
      if i :| 0 <= i < |more| && more[i].slot == a && more[i].port == b {
        if i < k { assert hints[..k][i] == more[i]; }
      }
    }
  }

  lemma {:induction false} DuplicateStays(hints: seq<Hint>, k: nat)
    requires k <= |hints| && Duplicate(hints[..k]).Some?
    ensures Duplicate(hints) == Duplicate(hints[..k])
  {
    if k == |hints| {
      assert hints[..k] == hints;
    } else {
      assert hints[..|hints| - 1][..k] == hints[..k];
      DuplicateStays(hints[..|hints| - 1], k);
    }
  }

  lemma {:induction false} FaultStays(symbols: seq<Symbol>, ids: seq<AgentId>, hints: seq<Hint>, k: nat)
    requires |ids| == |symbols| && k <= |hints| && FirstFault(symbols, hints[..k]).Some?
    ensures FirstFault(symbols, hints) == FirstFault(symbols, hints[..k])
    ensures Links(symbols, ids, hints) == Links(symbols, ids, hints[..k])
  {
    if k == |hints| {
      assert hints[..k] == hints;
    } else {
      assert hints[..|hints| - 1][..k] == hints[..k];
      FaultStays(symbols, ids, hints[..|hints| - 1], k);
    }
  }

  /** Mint every slot, reject repeated sources before any wire, wire hint by hint, echo. */
  method ApplyPendingCommutation(cell: Reducer.NetCell, pc: Request, buffer: seq<Minted>)
    returns (fault: Option<Fault>, out: seq<Minted>)
    requires pc.slot + |pc.symbols| <= 16
    modifies cell
    ensures fault == RequestFault(pc) && cell.net == Fulfil(old(cell.net), pc)
    ensures out == if fault.None? then buffer + Echo(pc, MintIds(old(cell.net), pc.symbols)) else buffer
  {
    hide CreateAll, ConnectAll, MintIds, Duplicate, FirstFault, Links;
    ghost var n := cell.net;
    out := buffer;
    MintNone(n);
    if pc.symbols == [] { return Some(ZeroArity), out; }
    var ids := MintAll(cell, pc.symbols);
    fault := FindDuplicate(pc.wiring);
    if fault.Some? { return; }
    fault := WireAll(cell, pc.symbols, ids, pc.wiring);
    if fault.Some? { return; }
    for k := 0 to |ids|
      invariant out == buffer + Echo(pc, ids)[..k]
    {
      out := out + [Minted(pc.cid, pc.slot + k, ids[k])];
    }
    assert Echo(pc, ids)[..|ids|] == Echo(pc, ids);
  }

  lemma MintNone(n: Net)
    ensures CreateAll(n, []) == n && MintIds(n, []) == []
  {}

  method MintAll(cell: Reducer.NetCell, symbols: seq<Symbol>) returns (ids: seq<AgentId>)
    modifies cell
    ensures cell.net == CreateAll(old(cell.net), symbols) && ids == MintIds(old(cell.net), symbols)
  {
    hide NetOps.CreateAgent, NetOps.NextFree;
    ids := [];
    for k := 0 to |symbols|
      invariant cell.net == CreateAll(old(cell.net), symbols[..k]) && ids == MintIds(old(cell.net), symbols[..k])
    {
      assert symbols[..k + 1][..k] == symbols[..k];
      var id := cell.CreateAgent(symbols[k]);
      ids := ids + [id];
    }
    assert symbols[..|symbols|] == symbols;
  }

  method WireAll(cell: Reducer.NetCell, symbols: seq<Symbol>, ids: seq<AgentId>, hints: seq<Hint>) returns (fault: Option<Fault>)
    requires |ids| == |symbols|
    modifies cell
    ensures fault == FirstFault(symbols, hints) && cell.net == ConnectAll(old(cell.net), Links(symbols, ids, hints))
  {
    hide ConnectAll, NetOps.Connect;
    ghost var n := cell.net;
    NoWiring(n);
    for k := 0 to |hints|
      invariant FirstFault(symbols, hints[..k]).None? && cell.net == ConnectAll(n, Links(symbols, ids, hints[..k]))
    {
      var h := hints[k];
      assert hints[..k + 1][..k] == hints[..k];
      fault := HintFault(symbols, h);
      if fault.Some? {
        assert Links(symbols, ids, hints[..k + 1]) == Links(symbols, ids, hints[..k]);
        FaultStays(symbols, ids, hints, k + 1);
        return;
      }
      var w := Link(ids, h);
      ConnectMore(n, Links(symbols, ids, hints[..k]), w);
      cell.Connect(w.0, w.1);
    }
    assert hints[..|hints|] == hints;
    fault := None;
  }

  lemma NoWiring(n: Net)
    ensures ConnectAll(n, []) == n
  {}

  // ------------------------------------------------------------------ a whole round

  datatype RoundFault = IdRangeExhausted(cid: nat) | Malformed(fault: Fault)

  datatype RoundMint = RoundMint(net: Net, minted: seq<Minted>, fault: Option<RoundFault>)

  /** All requests of a round: the range is checked once per request. */
  function MintRound(n: Net, rangeEnd: nat, pcs: seq<Request>): RoundMint {
    if pcs == [] then RoundMint(n, [], None)
    else
      var k := |pcs| - 1;
      var r := MintRound(n, rangeEnd, pcs[..k]);
      if r.fault.Some? then r
      else if r.net.nextId >= rangeEnd then r.(fault := Some(IdRangeExhausted(pcs[k].cid)))
      else
        var m, f := Fulfil(r.net, pcs[k]), RequestFault(pcs[k]);
        if f.Some? then RoundMint(m, r.minted, Some(Malformed(f.value)))
        else RoundMint(m, r.minted + Echo(pcs[k], MintIds(r.net, pcs[k].symbols)), None)
  }

  method MintForRound(cell: Reducer.NetCell, rangeEnd: nat, pcs: seq<Request>)
    returns (minted: seq<Minted>, fault: Option<RoundFault>)
    requires forall i :: 0 <= i < |pcs| ==> pcs[i].slot + |pcs[i].symbols| <= 16
    modifies cell
    ensures RoundMint(cell.net, minted, fault) == MintRound(old(cell.net), rangeEnd, pcs)
  {
    hide Fulfil, RequestFault, MintIds, Echo;
    minted, fault := [], None;
    for k := 0 to |pcs|
      invariant RoundMint(cell.net, minted, None) == MintRound(old(cell.net), rangeEnd, pcs[..k])
    {
      assert pcs[..k + 1][..k] == pcs[..k];
      if cell.net.nextId >= rangeEnd {
        fault := Some(IdRangeExhausted(pcs[k].cid));
        RoundStays(old(cell.net), rangeEnd, pcs, k + 1);
        return;
      }
      var f;
      f, minted := ApplyPendingCommutation(cell, pcs[k], minted);
      if f.Some? {
        fault := Some(Malformed(f.value));
        RoundStays(old(cell.net), rangeEnd, pcs, k + 1);
        return;
      }
    }
    assert pcs[..|pcs|] == pcs;
  }

  lemma {:induction false} RoundStays(n: Net, rangeEnd: nat, pcs: seq<Request>, k: nat)
    requires k <= |pcs| && MintRound(n, rangeEnd, pcs[..k]).fault.Some?
    ensures MintRound(n, rangeEnd, pcs) == MintRound(n, rangeEnd, pcs[..k])
  {
    if k == |pcs| {
      assert pcs[..k] == pcs;
    } else {
      assert pcs[..|pcs| - 1][..k] == pcs[..k];
      RoundStays(n, rangeEnd, pcs[..|pcs| - 1], k);
    }
  }

  lemma FulfilFresh(n: Net, pc: Request)
    requires FreshOnly(n)
    ensures FreshOnly(Fulfil(n, pc)) && Fulfil(n, pc).nextId == n.nextId + |pc.symbols|
  {
    MintFresh(n, pc.symbols);
  }

  /** Without recycling the ids reported in a round are consecutive from the counter on,
      over all its requests; the counter passes the end of the range by less than the
      largest request. */
  lemma {:induction false} RoundIds(n: Net, rangeEnd: nat, pcs: seq<Request>, largest: nat)
    requires FreshOnly(n) && largest >= 1 && forall i :: 0 <= i < |pcs| ==> |pcs[i].symbols| <= largest
    ensures var r := MintRound(n, rangeEnd, pcs);
      && FreshOnly(r.net)
      && (forall i :: 0 <= i < |r.minted| ==> r.minted[i].id == n.nextId + i)
      && n.nextId + |r.minted| <= r.net.nextId
      && (r.fault.None? ==> n.nextId + |r.minted| == r.net.nextId)
      && (r.net.nextId == n.nextId || r.net.nextId <= rangeEnd + largest - 1)
  {
    hide Fulfil, RequestFault, MintIds;
    if pcs != [] {
      var k := |pcs| - 1;
      RoundIds(n, rangeEnd, pcs[..k], largest);
      var r := MintRound(n, rangeEnd, pcs[..k]);
      FulfilFresh(r.net, pcs[k]);
      MintFresh(r.net, pcs[k].symbols);
    }
  }

  /** The bound is reached: one request can mint past the end of its range. */
  lemma OvershootReached(n: Net, rangeEnd: nat, symbols: seq<Symbol>)
    requires FreshOnly(n) && n.nextId == rangeEnd - 1 && symbols != []
    ensures var r := MintRound(n, rangeEnd, [Request(0, 0, symbols, [])]);
      r.fault.None? && r.net.nextId == rangeEnd + |symbols| - 1
  {
    var pc := Request(0, 0, symbols, []);
    assert [pc][..0] == [];
    RequestExact(pc);
    FulfilFresh(n, pc);
  }
}
