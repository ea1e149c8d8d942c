/** What a worker reports after a round, and what it keeps, told from the orders and the requests. */
module RoundReports {
  import opened Nets
  import NetOps
  import opened Commutation
  import opened RoundMinting
  import opened DeltaWorker
  import opened RoundOrders
  import W = Worker

  /** The least bound above the old one and the new borders. */
  ghost predicate LeastEnd(p: Partition, added: seq<BorderDelta>, end: nat) {
    && end >= p.borderEnd && (forall i :: 0 <= i < |added| && added[i].id != U32_MAX ==> added[i].id < end)
    && (end == p.borderEnd || exists i :: 0 <= i < |added| && added[i].id != U32_MAX && end == added[i].id + 1)
  }

  /** `q` is what the orders make of `p`: its borders, wires, queue and border range. */
  ghost predicate Obeyed(p: Partition, o: Payload, q: Partition) {
    && (forall k: nat :: EndAfter(p, Orders(o), k) == if k in q.index then Some(q.index[k]) else None)
    && (forall e: PortRef :: q.subnet.Target(e) == TargetAfter(p, Orders(o), e))
    && q.subnet.redexes == p.subnet.redexes + OrderedPairs(o.reconnections)
    && SameIds(p, q) && q.subnet.arena == p.subnet.arena
    && q.borderStart == p.borderStart && LeastEnd(p, o.added, q.borderEnd)
  }

  lemma FoldInObeyed(p: Partition, o: Payload)
    ensures Obeyed(p, o, FoldIn(p, o))
  {
    hide FoldIn, ObeyAll, Orders, SameIds, EndAfter, TargetAfter, OrderedPairs;
    var rs := Orders(o);
    FoldInObeys(p, o);
    forall k: nat ensures EndAfter(p, rs, k) == if k in FoldIn(p, o).index then Some(FoldIn(p, o).index[k]) else None {
      IndexFollows(p, rs, k);
    }
    forall e: PortRef ensures FoldIn(p, o).subnet.Target(e) == TargetAfter(p, rs, e) {
      TargetsFollow(p, rs, e);
    }
    QueueAfter(p, o);
    FoldInKeeps(p, o);
    ArenaStays(p, rs);
    BorderEndAfter(p, o);
  }

  /** The local end of some border is a principal port. */
  ghost predicate Principal(index: Borders) {
    exists k: nat, id: AgentId :: k in index && index[k] == AgentPort(id, 0)
  }

  /** A result: the orders are obeyed, then every request is fulfilled, then the net is reduced
      and its borders are scanned. It answers every slot asked for, tells which borders changed
      since the last result, and whether one of them is at a principal port. */
  ghost predicate Reported(w: Worker, o: Payload, engine: Engine, w': Worker, a: DeltaAction) {
    && w.delta.Some? && w'.delta.Some? && w'.state == W.DeltaActive && a.RoundResult?
    && o.round == w'.round == w'.delta.value.round == a.round
    && var p, r := w.delta.value.partition, w'.delta.value.partition;
    && (exists q: Partition ::
          && Obeyed(p, o, q)
          && var m := FulfilAll(q.subnet, o.requests);
          && Answered(o.requests, a.minted, m.agents) && AllNew(p.subnet.agents, a.minted, m.agents)
          && r.subnet == engine.reduce(m) && r.index == engine.rebuild(r.subnet, q.borderStart, q.borderEnd)
          && r.borderStart == q.borderStart && r.borderEnd == q.borderEnd && r.rangeEnd == q.rangeEnd)
    && w'.delta.value.previous == r.index
    && IsDiff(a.deltas, w.delta.value.previous, r.index)
    && (a.active <==> Principal(r.index))
  }

  /** An error: the orders are obeyed and the requests before the bad one fulfilled; the borders
      of the last result stay the reference for the next one. */
  ghost predicate Failed(w: Worker, o: Payload, w': Worker, a: DeltaAction) {
    && w.delta.Some? && w'.delta.Some? && a.RoundError?
    && w'.state == w.state && w'.round == w.round
    && w'.delta.value.previous == w.delta.value.previous && w'.delta.value.round == w.delta.value.round
    && var p, r := w.delta.value.partition, w'.delta.value.partition;
    && exists q: Partition, k: nat ::
         && Obeyed(p, o, q) && FailsAt(p.subnet, p.rangeEnd, o.requests, k, a.fault)
         && r == q.(subnet := Left(q.subnet, q.rangeEnd, o.requests, k))
  }

  /** Each round ends in one of the two ways, with a result exactly if the requests fit. */
  lemma RoundReports(w: Worker, o: Payload, engine: Engine, w': Worker, actions: seq<DeltaAction>)
    requires RoundStep(w, o, engine, w', actions) && NetOps.AllocOk(w.delta.value.partition.subnet)
    ensures |actions| == 2
    ensures var p := w.delta.value.partition;
      if Fits(p.subnet, p.rangeEnd, o.requests) then Reported(w, o, engine, w', actions[1]) else Failed(w, o, w', actions[1])
  {
    hide ObeyAll, Orders, FoldIn, MintRound, IsDiff, Obeyed, Fits, FailsAt, FulfilAll, Left, Answered, AllNew, NetOps.AllocOk, Principal, Active;
    var p, q := w.delta.value.partition, FoldIn(w.delta.value.partition, o);
    var m := MintRound(q.subnet, q.rangeEnd, o.requests);
    FoldInObeyed(p, o);
    FoldInKeeps(p, o);
    SameFits(p, q, o.requests);
    FoldInObeys(p, o);
    ArenaStays(p, Orders(o));
    AllocStays(p, q);
    BorderEndAfter(p, o);
    RoundExact(q.subnet, q.rangeEnd, o.requests);
    var k := RoundEnding(q.subnet, q.rangeEnd, o.requests);
    if m.fault.None? {
      RoundAnswered(q.subnet, q.rangeEnd, o.requests);
      RoundDistinct(q.subnet, q.rangeEnd, o.requests);
      ActiveExactly(w'.delta.value.previous);
    } else {
      SameFailure(p, q, o.requests, k, m.fault.value);
    }
  }

  lemma RoundEnding(n: Net, rangeEnd: nat, pcs: seq<Request>) returns (k: nat)
    ensures var r := MintRound(n, rangeEnd, pcs);
      if r.fault.None? then r.net == FulfilAll(n, pcs)
      else k < |pcs| && FailsAt(n, rangeEnd, pcs, k, r.fault.value) && r.net == Left(n, rangeEnd, pcs, k)
  {
    RoundFulfils(n, rangeEnd, pcs);
    hide MintRound, FulfilAll, Left, Fits, Blamed;
    k := 0;
    var r := MintRound(n, rangeEnd, pcs);
    if r.fault.Some? { k :| FailsAt(n, rangeEnd, pcs, k, r.fault.value) && r.net == Left(n, rangeEnd, pcs, k); }
  }

  lemma AllocStays(p: Partition, q: Partition)
    requires SameIds(p, q) && NetOps.AllocOk(p.subnet) && q.subnet.arena == p.subnet.arena
    ensures NetOps.AllocOk(q.subnet)
  {}

  lemma ActiveExactly(index: Borders)
    ensures Active(index) <==> Principal(index)
  {
    if Active(index) {
      var k :| k in index && index[k].AgentPort? && index[k].port == 0;
      assert index[k] == AgentPort(index[k].id, 0);
    }
  }

  lemma SameFailure(p: Partition, q: Partition, requests: seq<Request>, k: nat, f: RoundFault)
    requires SameIds(p, q) && FailsAt(q.subnet, q.rangeEnd, requests, k, f)
    ensures FailsAt(p.subnet, p.rangeEnd, requests, k, f)
  {
    hide Blamed, GoodRequest;
    SameFits(p, q, requests[..k]);
    assert Spare(q.subnet) == Spare(p.subnet);
  }

  // ------------------------------------------------------------------------- over all runs

  /** The partition given last, unless it was asked back. */
  function Given(events: seq<DeltaEvent>): Option<Partition> {
    if events == [] then None
    else
      match events[|events| - 1]
      case InitialPartition(p) => Some(p)
      case FinalStateRequest(_) => None
      case _ => Given(events[..|events| - 1])
  }

  /** No round since then. */
  predicate Untouched(events: seq<DeltaEvent>) {
    events != [] && (events[|events| - 1].InitialPartition?
                     || (!events[|events| - 1].RoundStart? && Untouched(events[..|events| - 1])))
  }

  /** `q` has the id range and the first border of `p`. */
  predicate SameShare(p: Partition, q: Partition) {
    q.rangeEnd == p.rangeEnd && q.borderStart == p.borderStart
  }

  ghost predicate Holds(w: Worker, events: seq<DeltaEvent>) {
    && (w.delta.Some? <==> Given(events).Some?)
    && (w.delta.Some? ==>
          && SameShare(Given(events).value, w.delta.value.partition)
          && (Untouched(events) ==> w.delta.value.partition == Given(events).value))
  }

  lemma RoundShares(w: Worker, o: Payload, engine: Engine, w': Worker, actions: seq<DeltaAction>)
    requires RoundStep(w, o, engine, w', actions)
    ensures w.delta.Some? && w'.delta.Some? && SameShare(w.delta.value.partition, w'.delta.value.partition)
  {
    hide FoldIn, MintRound, IsDiff;
    BorderEndAfter(w.delta.value.partition, o);
  }

  /** In every run the worker holds the partition it was given last until that is asked back:
      with the same id range and first border after any rounds, and unchanged before the first. */
  lemma {:induction false} HoldsGiven(w: Worker, mirror: Borders, engine: Engine, events: seq<DeltaEvent>)
    requires Run(w, mirror, engine, events)
    ensures Holds(w, events)
    decreases |events|
  {
    hide RoundStep, Heard;
    if events != [] {
      var k := |events| - 1;
      var v: Worker, m: Borders, actions: seq<DeltaAction> :|
        Run(v, m, engine, events[..k]) && Next(v, events[k], engine, w, actions) && mirror == Heard(m, events[k], actions);
      HoldsGiven(v, m, engine, events[..k]);
      if events[k].RoundStart? { RoundShares(v, events[k].orders, engine, w, actions); }
    }
  }

  /** And what is handed over on request is that partition. */
  lemma HandsOver(w: Worker, mirror: Borders, engine: Engine, events: seq<DeltaEvent>, r: nat, w': Worker, actions: seq<DeltaAction>)
    requires Run(w, mirror, engine, events) && Next(w, FinalStateRequest(r), engine, w', actions)
    ensures Given(events).Some? && |actions| == 2 && actions[1].FinalState? && actions[1].round == r
    ensures SameShare(Given(events).value, actions[1].partition) && (Untouched(events) ==> actions[1].partition == Given(events).value)
  {
    HoldsGiven(w, mirror, engine, events);
    hide Run;
  }
}
