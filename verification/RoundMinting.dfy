/** What a round of requests mints, over every list of requests and with recycling. */
module RoundMinting {
  import opened Nets
  import NetOps
  import opened Building
  import opened Commutation

  /** How many freed ids can be handed out before fresh ones are needed. */
  function Spare(n: Net): nat {
    if n.recycling then |n.freeList| else 0
  }

  /** What is left of `s` after `f` of it is served otherwise. */
  function Excess(s: nat, f: nat): nat {
    if s > f then s - f else 0
  }

  function Slots(pcs: seq<Request>): nat {
    if pcs == [] then 0 else Slots(pcs[..|pcs| - 1]) + |pcs[|pcs| - 1].symbols|
  }

  // ---------------------------------------------------------------------- the counter

  /** Freed ids are used up first, then the counter moves. */
  lemma {:induction false} MintCounter(n: Net, symbols: seq<Symbol>)
    ensures var m := CreateAll(n, symbols);
      m.nextId == n.nextId + Excess(|symbols|, Spare(n)) && Spare(m) == Excess(Spare(n), |symbols|)
  {
    if symbols != [] { MintCounter(n, symbols[..|symbols| - 1]); }
  }

  lemma FulfilCounter(n: Net, pc: Request)
    ensures var m := Fulfil(n, pc);
      m.nextId == n.nextId + Excess(|pc.symbols|, Spare(n)) && Spare(m) == Excess(Spare(n), |pc.symbols|)
  {
    MintCounter(n, pc.symbols);
    hide CreateAll;
  }

  /** Every request before the first fault is fulfilled, and the range is checked before
      each of them. */
  ghost predicate Fits(n: Net, rangeEnd: nat, pcs: seq<Request>) {
    forall k :: 0 <= k < |pcs| ==>
      GoodRequest(pcs[k]) && n.nextId + Excess(Slots(pcs[..k]), Spare(n)) < rangeEnd
  }

  /** A round is fulfilled exactly when each of its requests is good and finds the counter
      still inside the range; the counter then depends on the slots asked for alone. */
  lemma {:induction false} RoundExact(n: Net, rangeEnd: nat, pcs: seq<Request>)
    ensures var r := MintRound(n, rangeEnd, pcs);
      && (r.fault.None? <==> Fits(n, rangeEnd, pcs))
      && (r.fault.None? ==> r.net.nextId == n.nextId + Excess(Slots(pcs), Spare(n))
                            && Spare(r.net) == Excess(Spare(n), Slots(pcs)))
  {
    hide Fulfil, RequestFault, MintIds, GoodRequest;
    if pcs != [] {
      var k := |pcs| - 1;
      RoundExact(n, rangeEnd, pcs[..k]);
      var r := MintRound(n, rangeEnd, pcs[..k]);
      FulfilCounter(r.net, pcs[k]);
      RequestExact(pcs[k]);
      FitsMore(n, rangeEnd, pcs);
    }
  }

  lemma FitsMore(n: Net, rangeEnd: nat, pcs: seq<Request>)
    requires pcs != []
    ensures var k := |pcs| - 1;
      Fits(n, rangeEnd, pcs) <==>
        Fits(n, rangeEnd, pcs[..k]) && GoodRequest(pcs[k]) && n.nextId + Excess(Slots(pcs[..k]), Spare(n)) < rangeEnd
  {
    hide GoodRequest;
    var k := |pcs| - 1;
    assert forall j :: 0 <= j < k ==> pcs[..k][j] == pcs[j] && pcs[..k][..j] == pcs[..j];
  }

  /** Without recycling this is the condition on the plain sum of the slots. */
  lemma RoundExactFresh(n: Net, rangeEnd: nat, pcs: seq<Request>)
    requires FreshOnly(n)
    ensures MintRound(n, rangeEnd, pcs).fault.None? <==>
      forall k :: 0 <= k < |pcs| ==> GoodRequest(pcs[k]) && n.nextId + Slots(pcs[..k]) < rangeEnd
  {
    hide MintRound, GoodRequest;
    RoundExact(n, rangeEnd, pcs);
    assert forall s: nat :: Excess(s, Spare(n)) == s;
  }

  /** With or without recycling and faults, the counter passes the end of the range by
      less than the largest request. */
  lemma {:induction false} RoundBound(n: Net, rangeEnd: nat, pcs: seq<Request>, largest: nat)
    requires largest >= 1 && forall i :: 0 <= i < |pcs| ==> |pcs[i].symbols| <= largest
    ensures var r := MintRound(n, rangeEnd, pcs);
      && n.nextId <= r.net.nextId <= n.nextId + Excess(Slots(pcs), Spare(n)) && Spare(r.net) >= Excess(Spare(n), Slots(pcs))
      && (r.net.nextId == n.nextId || r.net.nextId <= rangeEnd + largest - 1)
  {
    hide Fulfil, RequestFault, MintIds;
    if pcs != [] {
      var k := |pcs| - 1;
      RoundBound(n, rangeEnd, pcs[..k], largest);
      FulfilCounter(MintRound(n, rangeEnd, pcs[..k]).net, pcs[k]);
    }
  }

  // ------------------------------------------------------------------- where ids come from

  /** `id` was free in `n`, or is a fresh one below `top`. */
  predicate From(n: Net, top: nat, id: AgentId) {
    (n.recycling && id in n.freeList) || n.nextId <= id < top
  }

  ghost predicate Shrunk(n: Net, m: Net) {
    m.recycling == n.recycling && n.nextId <= m.nextId && forall id :: id in m.freeList ==> id in n.freeList
  }

  lemma {:induction false} MintOrigin(n: Net, symbols: seq<Symbol>)
    ensures var m := CreateAll(n, symbols);
      Shrunk(n, m) && forall i :: 0 <= i < |symbols| ==> From(n, m.nextId, MintIds(n, symbols)[i])
  {
    if symbols != [] {
      var k := |symbols| - 1;
      MintOrigin(n, symbols[..k]);
      OneOrigin(CreateAll(n, symbols[..k]), symbols[k]);
    }
  }

  lemma OneOrigin(m: Net, s: Symbol)
    ensures Shrunk(m, NetOps.CreateAgent(m, s)) && From(m, NetOps.CreateAgent(m, s).nextId, NetOps.NextFree(m))
  {}

  lemma {:induction false} RoundOrigin(n: Net, rangeEnd: nat, pcs: seq<Request>)
    ensures var r := MintRound(n, rangeEnd, pcs);
      Shrunk(n, r.net) && forall i :: 0 <= i < |r.minted| ==> From(n, r.net.nextId, r.minted[i].id)
  {
    if pcs != [] {
      var k := |pcs| - 1;
      RoundOrigin(n, rangeEnd, pcs[..k]);
      var r := MintRound(n, rangeEnd, pcs[..k]);
      MintOrigin(r.net, pcs[k].symbols);
      FulfilFrame(r.net, pcs[k]);
      hide Fulfil, CreateAll, MintIds, RequestFault;
    }
  }

  lemma FulfilFrame(n: Net, pc: Request)
    ensures var m, c := Fulfil(n, pc), CreateAll(n, pc.symbols);
      m.nextId == c.nextId && m.freeList == c.freeList && m.recycling == c.recycling && m.agents == c.agents && m.arena == c.arena
  {
    hide CreateAll;
  }

  /** The ids reported are live, were not live before, and are pairwise different. */
  ghost predicate AllNew(before: map<AgentId, Symbol>, minted: seq<Minted>, after: map<AgentId, Symbol>) {
    && (forall id :: id in before ==> id in after)
    && (forall i :: 0 <= i < |minted| ==> minted[i].id !in before && minted[i].id in after)
    && (forall i, j :: 0 <= i < j < |minted| ==> minted[i].id != minted[j].id)
  }

  lemma AllNewMore(before: map<AgentId, Symbol>, minted: seq<Minted>, mid: map<AgentId, Symbol>, pc: Request,
                   ids: seq<AgentId>, after: map<AgentId, Symbol>)
    requires AllNew(before, minted, mid) && NewAgents(mid, after, ids, pc.symbols)
    ensures AllNew(before, minted + Echo(pc, ids), after) && AllNew(before, minted, after)
  {
    var more := minted + Echo(pc, ids);
    forall i | |minted| <= i < |more| ensures more[i].id == ids[i - |minted|] {}
  }

  /** The ids of a round are new and pairwise different, whether or not ids are recycled. */
  lemma {:induction false} RoundDistinct(n: Net, rangeEnd: nat, pcs: seq<Request>)
    requires NetOps.AllocOk(n)
    ensures var r := MintRound(n, rangeEnd, pcs); NetOps.AllocOk(r.net) && AllNew(n.agents, r.minted, r.net.agents)
  {
    hide MintIds, CreateAll, RequestFault, NetOps.AllocOk, Fulfil, AllNew, NewAgents;
    if pcs == [] {
      NothingNew(n.agents);
    } else {
      var k := |pcs| - 1;
      RoundDistinct(n, rangeEnd, pcs[..k]);
      var r := MintRound(n, rangeEnd, pcs[..k]);
      MintAgents(r.net, pcs[k].symbols);
      FulfilAlloc(r.net, pcs[k]);
      FulfilFrame(r.net, pcs[k]);
      AllNewMore(n.agents, r.minted, r.net.agents, pcs[k], MintIds(r.net, pcs[k].symbols), Fulfil(r.net, pcs[k]).agents);
    }
  }

  lemma NothingNew(agents: map<AgentId, Symbol>)
    ensures AllNew(agents, [], agents)
  {}

  lemma FulfilAlloc(n: Net, pc: Request)
    requires NetOps.AllocOk(CreateAll(n, pc.symbols))
    ensures NetOps.AllocOk(Fulfil(n, pc))
  {
    hide CreateAll, Links, MintIds, ConnectAll;
  }

  /** The first id of a round is the next free one. */
  lemma {:induction false} FirstMinted(n: Net, rangeEnd: nat, pcs: seq<Request>)
    ensures var r := MintRound(n, rangeEnd, pcs);
      && (r.minted != [] ==> r.minted[0].id == NetOps.NextFree(n))
      && (r.minted == [] && r.fault.None? ==> pcs == [])
  {
    if pcs != [] {
      var k := |pcs| - 1;
      FirstMinted(n, rangeEnd, pcs[..k]);
      var r := MintRound(n, rangeEnd, pcs[..k]);
      hide Fulfil, MintIds;
      if r.fault.None? && r.minted == [] {
        assert pcs[..k] == [];
        if pcs[k].symbols != [] { MintFirst(n, pcs[k].symbols); }
      }
    }
  }

  /** The ids of a round are consecutive from the counter on exactly if nothing can be
      recycled, or nothing is minted at all. */
  lemma RoundConsecutive(n: Net, rangeEnd: nat, pcs: seq<Request>)
    requires NetOps.AllocOk(n)
    ensures var r := MintRound(n, rangeEnd, pcs);
      (forall i :: 0 <= i < |r.minted| ==> r.minted[i].id == n.nextId + i) <==> FreshOnly(n) || r.minted == []
  {
    hide MintRound;
    FirstMinted(n, rangeEnd, pcs);
    if FreshOnly(n) { RoundIds(n, rangeEnd, pcs, Largest(pcs)); }
  }

  /** Requests of one slot never leave the range. */
  lemma SingleSlotsStay(n: Net, rangeEnd: nat, pcs: seq<Request>)
    requires NetOps.AllocOk(n) && n.nextId <= rangeEnd && forall i :: 0 <= i < |pcs| ==> |pcs[i].symbols| <= 1
    ensures MintRound(n, rangeEnd, pcs).net.nextId <= rangeEnd
    ensures forall i :: 0 <= i < |MintRound(n, rangeEnd, pcs).minted| ==> MintRound(n, rangeEnd, pcs).minted[i].id < rangeEnd
  {
    hide MintRound;
    RoundBound(n, rangeEnd, pcs, 1);
    RoundOrigin(n, rangeEnd, pcs);
  }

  /** Workers whose free ids and ranges are apart, and whose requests fit, mint disjoint ids. */
  lemma DisjointRanges(n: Net, e: nat, pcs: seq<Request>, n': Net, e': nat, pcs': seq<Request>, i: nat, j: nat)
    requires NetOps.AllocOk(n) && NetOps.AllocOk(n')
    requires n.nextId + Excess(Slots(pcs), Spare(n)) <= e <= n'.nextId
    requires forall id :: id in n'.freeList ==> id !in n.freeList && !(n.nextId <= id < e)
    requires i < |MintRound(n, e, pcs).minted| && j < |MintRound(n', e', pcs').minted|
    ensures MintRound(n, e, pcs).minted[i].id != MintRound(n', e', pcs').minted[j].id
  {
    hide MintRound;
    RoundBound(n, e, pcs, Largest(pcs));
    RoundOrigin(n, e, pcs);
    RoundOrigin(n', e', pcs');
  }

  function Largest(pcs: seq<Request>): (m: nat)
    ensures m >= 1 && forall i :: 0 <= i < |pcs| ==> |pcs[i].symbols| <= m
  {
    if pcs == [] then 1
    else
      var k := |pcs| - 1;
      var m := Largest(pcs[..k]);
      assert forall i :: 0 <= i < k ==> pcs[..k][i] == pcs[i];
      if |pcs[k].symbols| > m then |pcs[k].symbols| else m
  }

  // ------------------------------------------------------------------------- the answers

  /** Slot `j` of request `k` has its answer at its place in the list: the names asked for, and a
      live agent of the requested symbol. */
  ghost predicate AnsweredAt(pcs: seq<Request>, minted: seq<Minted>, agents: map<AgentId, Symbol>, k: nat, j: nat)
    requires k < |pcs| && j < |pcs[k].symbols|
  {
    var i := Slots(pcs[..k]) + j;
    && i < |minted|
    && minted[i].cid == pcs[k].cid && minted[i].slot == pcs[k].slot + j
    && minted[i].id in agents && agents[minted[i].id] == pcs[k].symbols[j]
  }

  /** Every slot of every request is answered, in order, and nothing else is. */
  ghost predicate Answered(pcs: seq<Request>, minted: seq<Minted>, agents: map<AgentId, Symbol>) {
    && |minted| == Slots(pcs)
    && forall k: nat, j: nat :: (k < |pcs| && j < |pcs[k].symbols|) ==> AnsweredAt(pcs, minted, agents, k, j)
  }

  lemma SlotsMore(pcs: seq<Request>, pc: Request)
    ensures Slots(pcs + [pc]) == Slots(pcs) + |pc.symbols|
  {
    assert (pcs + [pc])[..|pcs|] == pcs;
  }

  lemma {:induction false} SlotsBelow(pcs: seq<Request>, k: nat)
    requires k < |pcs|
    ensures Slots(pcs[..k]) + |pcs[k].symbols| <= Slots(pcs)
  {
    var l := |pcs| - 1;
    if k < l {
      SlotsBelow(pcs[..l], k);
      assert pcs[..l][..k] == pcs[..k];
    }
  }

  lemma AnsweredMore(pcs: seq<Request>, minted: seq<Minted>, mid: map<AgentId, Symbol>, pc: Request, ids: seq<AgentId>, after: map<AgentId, Symbol>)
    requires Answered(pcs, minted, mid) && NewAgents(mid, after, ids, pc.symbols)
    ensures Answered(pcs + [pc], minted + Echo(pc, ids), after)
  {
    hide Slots;
    var more, all := minted + Echo(pc, ids), pcs + [pc];
    SlotsMore(pcs, pc);
    forall k: nat, j: nat | k < |all| && j < |all[k].symbols|
      ensures AnsweredAt(all, more, after, k, j)
    {
      if k < |pcs| {
        assert all[..k] == pcs[..k] && all[k] == pcs[k];
        assert AnsweredAt(pcs, minted, mid, k, j);
        assert more[Slots(pcs[..k]) + j] == minted[Slots(pcs[..k]) + j];
      } else {
        assert all[..k] == pcs;
        assert more[|minted| + j] == Echo(pc, ids)[j];
        assert ids[j] in after && after[ids[j]] == pc.symbols[j];
      }
    }
  }

  /** A round that is fulfilled answers every slot of every request. */
  lemma {:induction false} RoundAnswered(n: Net, rangeEnd: nat, pcs: seq<Request>)
    requires NetOps.AllocOk(n)
    ensures var r := MintRound(n, rangeEnd, pcs); r.fault.None? ==> Answered(pcs, r.minted, r.net.agents)
  {
    hide MintIds, CreateAll, RequestFault, NetOps.AllocOk, Fulfil, Answered, NewAgents, Slots, Echo;
    if pcs == [] {
      NothingAsked(n.agents);
    } else {
      var k := |pcs| - 1;
      RoundAnswered(n, rangeEnd, pcs[..k]);
      RoundDistinct(n, rangeEnd, pcs[..k]);
      var r := MintRound(n, rangeEnd, pcs[..k]);
      MintAgents(r.net, pcs[k].symbols);
      FulfilFrame(r.net, pcs[k]);
      if MintRound(n, rangeEnd, pcs).fault.None? {
        AnsweredMore(pcs[..k], r.minted, r.net.agents, pcs[k], MintIds(r.net, pcs[k].symbols), Fulfil(r.net, pcs[k]).agents);
        assert pcs[..k] + [pcs[k]] == pcs;
      }
    }
  }

  lemma NothingAsked(agents: map<AgentId, Symbol>)
    ensures Answered([], [], agents)
  {}

  /** Slot `i` of request `k` and slot `j` of request `l` go by the same name. */
  ghost predicate SameName(pcs: seq<Request>, k: nat, i: nat, l: nat, j: nat)
    requires k < |pcs| && l < |pcs|
  {
    pcs[k].cid == pcs[l].cid && pcs[k].slot + i == pcs[l].slot + j
  }

  /** No two of the slots asked for go by the same name. */
  ghost predicate NamedApart(pcs: seq<Request>) {
    forall k: nat, i: nat, l: nat, j: nat ::
      (k < |pcs| && l < |pcs| && i < |pcs[k].symbols| && j < |pcs[l].symbols| && SameName(pcs, k, i, l, j))
      ==> k == l && i == j
  }

  /** Each place of the list belongs to one slot of one request. */
  lemma {:induction false} SlotAt(pcs: seq<Request>, p: nat) returns (k: nat, j: nat)
    requires p < Slots(pcs)
    ensures k < |pcs| && j < |pcs[k].symbols| && Slots(pcs[..k]) + j == p
  {
    var l := |pcs| - 1;
    if p < Slots(pcs[..l]) {
      k, j := SlotAt(pcs[..l], p);
      assert pcs[..l][..k] == pcs[..k];
    } else {
      k, j := l, p - Slots(pcs[..l]);
    }
  }

  /** With slots of different names, each name is answered once. */
  lemma AnsweredOnce(pcs: seq<Request>, minted: seq<Minted>, agents: map<AgentId, Symbol>)
    requires Answered(pcs, minted, agents) && NamedApart(pcs)
    ensures forall p, q :: (0 <= p < |minted| && 0 <= q < |minted|
              && minted[p].cid == minted[q].cid && minted[p].slot == minted[q].slot) ==> p == q
  {
    hide Slots;
    forall p, q | 0 <= p < |minted| && 0 <= q < |minted|
      && minted[p].cid == minted[q].cid && minted[p].slot == minted[q].slot
      ensures p == q
    {
      var k, i := SlotAt(pcs, p);
      var l, j := SlotAt(pcs, q);
      assert AnsweredAt(pcs, minted, agents, k, i) && AnsweredAt(pcs, minted, agents, l, j);
      assert SameName(pcs, k, i, l, j);
    }
  }

  // --------------------------------------------------------------------- the whole round

  /** Every request in turn is fulfilled on what the ones before it left. */
  function FulfilAll(n: Net, pcs: seq<Request>): Net {
    if pcs == [] then n else Fulfil(FulfilAll(n, pcs[..|pcs| - 1]), pcs[|pcs| - 1])
  }

  /** The counter when the request at `k` is looked at. */
  function CounterAt(n: Net, pcs: seq<Request>, k: nat): nat
    requires k <= |pcs|
  {
    n.nextId + Excess(Slots(pcs[..k]), Spare(n))
  }

  /** The round ends at the request `k` with the error `f`: the ones before it are fulfilled,
      and then the range is used up or the request is bad. */
  ghost predicate FailsAt(n: Net, rangeEnd: nat, pcs: seq<Request>, k: nat, f: RoundFault) {
    && k < |pcs| && Fits(n, rangeEnd, pcs[..k])
    && if CounterAt(n, pcs, k) >= rangeEnd then f == IdRangeExhausted(pcs[k].cid)
       else f.Malformed? && Blamed(pcs[k], f.fault)
  }

  /** What a failed round leaves: the requests before the bad one are fulfilled, and the bad
      one has minted its agents, unless the range was used up. */
  function Left(n: Net, rangeEnd: nat, pcs: seq<Request>, k: nat): Net
    requires k < |pcs|
  {
    if CounterAt(n, pcs, k) >= rangeEnd then FulfilAll(n, pcs[..k]) else FulfilAll(n, pcs[..k + 1])
  }

  ghost predicate RoundEnds(n: Net, rangeEnd: nat, pcs: seq<Request>, r: RoundMint) {
    if r.fault.None? then Fits(n, rangeEnd, pcs) && r.net == FulfilAll(n, pcs)
    else exists k: nat :: FailsAt(n, rangeEnd, pcs, k, r.fault.value) && r.net == Left(n, rangeEnd, pcs, k)
  }

  /** A round fulfils its requests one after the other, up to the first that is bad or finds
      the range used up, and blames that one. */
  lemma {:induction false} RoundFulfils(n: Net, rangeEnd: nat, pcs: seq<Request>)
    ensures RoundEnds(n, rangeEnd, pcs, MintRound(n, rangeEnd, pcs))
  {
    hide Fulfil, RequestFault, MintIds, Echo, Slots, Blamed, GoodRequest, Fits;
    RoundExact(n, rangeEnd, pcs);
    if pcs != [] {
      var k := |pcs| - 1;
      var before := pcs[..k];
      RoundFulfils(n, rangeEnd, before);
      RoundExact(n, rangeEnd, before);
      var r, s := MintRound(n, rangeEnd, before), MintRound(n, rangeEnd, pcs);
      if r.fault.Some? {
        var j: nat :| FailsAt(n, rangeEnd, before, j, r.fault.value) && r.net == Left(n, rangeEnd, before, j);
        assert before[..j] == pcs[..j] && before[..j + 1] == pcs[..j + 1];
        assert FailsAt(n, rangeEnd, pcs, j, s.fault.value);
      } else if s.fault.Some? {
        assert pcs[..k + 1] == pcs;
        if s.fault.value.Malformed? { FaultBlamed(pcs[k], s.fault.value.fault); }
        assert FailsAt(n, rangeEnd, pcs, k, s.fault.value);
      }
    }
  }

  /** No other request could have been blamed. */
  lemma FailsOnce(n: Net, rangeEnd: nat, pcs: seq<Request>, k: nat, f: RoundFault, l: nat, g: RoundFault)
    requires FailsAt(n, rangeEnd, pcs, k, f) && FailsAt(n, rangeEnd, pcs, l, g)
    ensures k == l && f == g
  {
    hide Slots, GoodRequest, Blamed;
    if k < l { FailsFirst(n, rangeEnd, pcs, k, f, l); }
    if l < k { FailsFirst(n, rangeEnd, pcs, l, g, k); }
    if f.Malformed? && g.Malformed? {
      FaultBlamed(pcs[k], f.fault);
      FaultBlamed(pcs[l], g.fault);
    }
  }

  lemma FailsFirst(n: Net, rangeEnd: nat, pcs: seq<Request>, k: nat, f: RoundFault, l: nat)
    requires FailsAt(n, rangeEnd, pcs, k, f) && k < l <= |pcs|
    ensures !Fits(n, rangeEnd, pcs[..l])
  {
    hide Slots, GoodRequest, Blamed;
    if Fits(n, rangeEnd, pcs[..l]) {
      assert pcs[..l][k] == pcs[k] && pcs[..l][..k] == pcs[..k];
      RequestExact(pcs[k]);
      if f.Malformed? { FaultBlamed(pcs[k], f.fault); }
      assert false;
    }
  }
}
