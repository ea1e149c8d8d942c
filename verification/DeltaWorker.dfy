/** The delta-mode worker: it keeps its partition and reports only changed borders. */
module DeltaWorker {
  import opened Nets
  import NetOps
  import opened Commutation
  import opened RoundMinting
  import Reducer
  import W = Worker

  type Borders = map<nat, PortRef>

  datatype BorderDelta = BorderDelta(id: nat, target: PortRef)

  datatype Reconnection = Reconnection(id: AgentId, port: nat, target: PortRef)

  /** A worker's part of the net, with the local end of each of its borders. */
  datatype Partition = Partition(subnet: Net, index: Borders, borderStart: nat, borderEnd: nat, rangeEnd: nat)

  /** What a round asks for. */
  datatype Payload = Payload(round: nat, deltas: seq<BorderDelta>, resolved: seq<nat>, added: seq<BorderDelta>,
                             reconnections: seq<Reconnection>, requests: seq<Request>)

  datatype DeltaState = DeltaState(partition: Partition, previous: Borders, round: nat)

  datatype Worker = Worker(state: W.WorkerState, round: nat, delta: Option<DeltaState>)

  datatype DeltaAction =
    | Log(before: W.WorkerState, after: W.WorkerState)
    | RoundResult(round: nat, deltas: seq<BorderDelta>, minted: seq<Minted>, active: bool)
    | RoundError(fault: RoundFault)
    | FinalState(round: nat, partition: Partition)

  // ------------------------------------------------------- folding in a round's orders

  /** Drops the local end of a border, if it is an agent port. */
  function Release(p: Partition, id: nat): Net {
    if id in p.index && p.index[id].AgentPort? then NetOps.Disconnect(p.subnet, p.index[id]) else p.subnet
  }

  function Repoint(p: Partition, d: BorderDelta): Partition {
    if d.target == DISCONNECTED then p.(subnet := Release(p, d.id), index := p.index - {d.id})
    else
      p.(subnet := NetOps.Connect(Release(p, d.id), d.target, FreePort(d.id)), index := p.index[d.id := d.target])
  }

  function Drop(p: Partition, id: nat): Partition {
    p.(subnet := Release(p, id), index := p.index - {id})
  }

  function Insert(p: Partition, d: BorderDelta): Partition {
    p.(subnet := NetOps.Connect(p.subnet, d.target, FreePort(d.id)), index := p.index[d.id := d.target],
       borderEnd := if d.id != U32_MAX && d.id >= p.borderEnd then d.id + 1 else p.borderEnd)
  }

  /** A port told to wire to itself is left alone. */
  function Reconnect(p: Partition, r: Reconnection): Partition {
    if r.target == AgentPort(r.id, r.port) then p
    else p.(subnet := NetOps.Connect(p.subnet, AgentPort(r.id, r.port), r.target))
  }

  function RepointAll(p: Partition, ds: seq<BorderDelta>): Partition {
    if ds == [] then p else Repoint(RepointAll(p, ds[..|ds| - 1]), ds[|ds| - 1])
  }

  function DropAll(p: Partition, ids: seq<nat>): Partition {
    if ids == [] then p else Drop(DropAll(p, ids[..|ids| - 1]), ids[|ids| - 1])
  }

  function InsertAll(p: Partition, ds: seq<BorderDelta>): Partition {
    if ds == [] then p else Insert(InsertAll(p, ds[..|ds| - 1]), ds[|ds| - 1])
  }

  function ReconnectAll(p: Partition, rs: seq<Reconnection>): Partition {
    if rs == [] then p else Reconnect(ReconnectAll(p, rs[..|rs| - 1]), rs[|rs| - 1])
  }

  /** Borders first, then local reconnections. */
  function FoldIn(p: Partition, o: Payload): Partition {
    ReconnectAll(InsertAll(DropAll(RepointAll(p, o.deltas), o.resolved), o.added), o.reconnections)
  }

  /** The loops over the three lists of border orders. */
  method ApplyBorderDeltas(p: Partition, deltas: seq<BorderDelta>, resolved: seq<nat>, added: seq<BorderDelta>) returns (q: Partition)
    ensures q == InsertAll(DropAll(RepointAll(p, deltas), resolved), added)
  {
    hide Repoint, Drop, Insert;
    q := p;
    for i := 0 to |deltas|
      invariant q == RepointAll(p, deltas[..i])
    {
      q := Repoint(q, deltas[i]);
      assert deltas[..i + 1][..i] == deltas[..i];
    }
    assert deltas[..|deltas|] == deltas;
    ghost var a := q;
    for i := 0 to |resolved|
      invariant q == DropAll(a, resolved[..i])
    {
      q := Drop(q, resolved[i]);
      assert resolved[..i + 1][..i] == resolved[..i];
    }
    assert resolved[..|resolved|] == resolved;
    ghost var b := q;
    for i := 0 to |added|
      invariant q == InsertAll(b, added[..i])
    {
      q := Insert(q, added[i]);
      assert added[..i + 1][..i] == added[..i];
    }
    assert added[..|added|] == added;
  }

  /** All orders of a round: the borders, then the reconnections. */
  method ObeyOrders(p: Partition, o: Payload) returns (q: Partition)
    ensures q == FoldIn(p, o)
  {
    hide Reconnect, InsertAll, DropAll, RepointAll;
    q := ApplyBorderDeltas(p, o.deltas, o.resolved, o.added);
    ghost var a := q;
    for i := 0 to |o.reconnections|
      invariant q == ReconnectAll(a, o.reconnections[..i])
    {
      q := Reconnect(q, o.reconnections[i]);
      assert o.reconnections[..i + 1][..i] == o.reconnections[..i];
    }
    assert o.reconnections[..|o.reconnections|] == o.reconnections;
  }

  // ------------------------------------------------------------------ the border diff

  function Lookup(m: Borders, k: nat): PortRef {
    if k in m then m[k] else DISCONNECTED
  }

  predicate Changed(previous: Borders, current: Borders, d: BorderDelta) {
    if d.id in current then d.target == current[d.id] && !(d.id in previous && previous[d.id] == current[d.id])
    else d.id in previous && d.target == DISCONNECTED
  }

  /** One entry per border that changed, in any order. */
  ghost predicate IsDiff(out: seq<BorderDelta>, previous: Borders, current: Borders) {
    && (forall i :: 0 <= i < |out| ==> Changed(previous, current, out[i]))
    && (forall i, j :: 0 <= i < j < |out| ==> out[i].id != out[j].id)
    && (forall d :: Changed(previous, current, d) ==> d in out)
  }

  /** The source walks two hash maps, whose order is arbitrary. */
  method ComputeOutgoingDeltas(previous: Borders, current: Borders) returns (out: seq<BorderDelta>)
    ensures IsDiff(out, previous, current)
  {
    out := [];
    var todo := current.Keys;
    while todo != {}
      invariant todo <= current.Keys
      invariant forall i :: 0 <= i < |out| ==> Changed(previous, current, out[i]) && out[i].id in current && out[i].id !in todo
      invariant forall i, j :: 0 <= i < j < |out| ==> out[i].id != out[j].id
      invariant forall d :: Changed(previous, current, d) && d.id in current && d.id !in todo ==> d in out
      decreases todo
    {
      var k :| k in todo;
      if !(k in previous && previous[k] == current[k]) { out := out + [BorderDelta(k, current[k])]; }
      todo := todo - {k};
    }
    ghost var known := out;
    todo := previous.Keys;
    while todo != {}
      invariant todo <= previous.Keys && known <= out
      invariant forall i :: 0 <= i < |out| ==> Changed(previous, current, out[i]) && (out[i].id in current || out[i].id !in todo)
      invariant forall i, j :: 0 <= i < j < |out| ==> out[i].id != out[j].id
      invariant forall d :: Changed(previous, current, d) && (d.id in current || d.id !in todo) ==> d in out
      decreases todo
    {
      var k :| k in todo;
      if k !in current { out := out + [BorderDelta(k, DISCONNECTED)]; }
      todo := todo - {k};
    }
  }

  /** What the coordinator knows after hearing some deltas. */
  function Replay(m: Borders, ds: seq<BorderDelta>): Borders {
    if ds == [] then m else Replay(m, ds[..|ds| - 1])[ds[|ds| - 1].id := ds[|ds| - 1].target]
  }

  /** The two maps agree, an absent border being a disconnected one. */
  ghost predicate Same(m: Borders, l: Borders) {
    forall k :: Lookup(m, k) == Lookup(l, k)
  }

  lemma {:induction false} ReplayLookup(m: Borders, ds: seq<BorderDelta>, i: nat)
    requires i < |ds| && forall j :: i < j < |ds| ==> ds[j].id != ds[i].id
    ensures Lookup(Replay(m, ds), ds[i].id) == ds[i].target
  {
    var j := |ds| - 1;
    if i < j { ReplayLookup(m, ds[..j], i); }
  }

  lemma {:induction false} ReplayOther(m: Borders, ds: seq<BorderDelta>, k: nat)
    requires forall j :: 0 <= j < |ds| ==> ds[j].id != k
    ensures Lookup(Replay(m, ds), k) == Lookup(m, k)
  {
    if ds != [] { ReplayOther(m, ds[..|ds| - 1], k); }
  }

  /** Replaying a diff turns the old borders into the new ones. */
  lemma DiffReplays(m: Borders, out: seq<BorderDelta>, previous: Borders, current: Borders)
    requires Same(m, previous) && IsDiff(out, previous, current)
    ensures Same(Replay(m, out), current)
  {
    forall k: nat ensures Lookup(Replay(m, out), k) == Lookup(current, k) {
      assert Lookup(m, k) == Lookup(previous, k);
      var d := BorderDelta(k, Lookup(current, k));
      if Changed(previous, current, d) {
        var i :| 0 <= i < |out| && out[i] == d;
        ReplayLookup(m, out, i);
      } else {
        forall i | 0 <= i < |out| ensures out[i].id != k {
          assert Changed(previous, current, out[i]);
        }
        ReplayOther(m, out, k);
      }
    }
  }

  // --------------------------------------------------------------------- the handlers

  /** Local reduction and the index scan, as the worker calls them. */
  datatype Engine = Engine(reduce: Net -> Net, rebuild: (Net, nat, nat) -> Borders)

  predicate InDelta(w: Worker) {
    w.state.DeltaIdle? || w.state.DeltaActive?
  }

  /** A worker in a delta state holds its partition. */
  predicate Valid(w: Worker) {
    InDelta(w) ==> w.delta.Some?
  }

  predicate Active(index: Borders) {
    exists k :: k in index && index[k].AgentPort? && index[k].port == 0
  }

  function Initial(w: Worker, p: Partition): Worker {
    w.(state := W.DeltaIdle, round := 0, delta := Some(DeltaState(p, p.index, 0)))
  }

  /** A round that fails keeps what it did to the partition, reports no result and
      leaves the baseline alone. */
  function Aborted(w: Worker, p: Partition, m: RoundMint): Worker
    requires w.delta.Some?
  {
    w.(delta := Some(w.delta.value.(partition := p.(subnet := m.net))))
  }

  function Completed(w: Worker, p: Partition, m: RoundMint, round: nat, engine: Engine): Worker {
    var net := engine.reduce(m.net);
    var index := engine.rebuild(net, p.borderStart, p.borderEnd);
    Worker(W.DeltaActive, round, Some(DeltaState(p.(subnet := net, index := index), index, round)))
  }

  /** One round: the orders, then the requests, then reduction, scan and diff. */
  ghost predicate RoundStep(w: Worker, o: Payload, engine: Engine, w': Worker, actions: seq<DeltaAction>) {
    w.delta.Some? &&
    var p := FoldIn(w.delta.value.partition, o);
    var m := MintRound(p.subnet, p.rangeEnd, o.requests);
    if m.fault.Some? then
      w' == Aborted(w, p, m) && actions == [Log(w.state, w.state), RoundError(m.fault.value)]
    else
      && w' == Completed(w, p, m, o.round, engine)
      && |actions| == 2 && actions[0] == Log(w.state, W.DeltaActive)
      && actions[1].RoundResult? && actions[1].round == o.round && actions[1].minted == m.minted
      && IsDiff(actions[1].deltas, w.delta.value.previous, w'.delta.value.previous)
      && actions[1].active == Active(w'.delta.value.previous)
  }

  class DeltaContext {
    var state: W.WorkerState
    var round: nat
    var delta: Option<DeltaState>

    constructor ()
      ensures View() == Worker(W.Starting, 0, None) && Valid(View())
    {
      state, round, delta := W.Starting, 0, None;
    }

    function View(): Worker
      reads this
    {
      Worker(state, round, delta)
    }

    method HandleInitialPartition(partition: Partition) returns (actions: seq<DeltaAction>)
      modifies this
      ensures View() == Initial(old(View()), partition) && Valid(View())
      ensures actions == [Log(old(state), W.DeltaIdle)]
    {
      var before := state;
      delta := Some(DeltaState(partition, partition.index, 0));
      state := W.DeltaIdle;
      round := 0;
      actions := [Log(before, state)];
    }

    method HandleRoundStart(o: Payload, engine: Engine) returns (actions: seq<DeltaAction>)
      requires InDelta(View()) && Valid(View())
      requires forall i :: 0 <= i < |o.requests| ==> o.requests[i].slot + |o.requests[i].symbols| <= 16
      modifies this
      ensures RoundStep(old(View()), o, engine, View(), actions) && Valid(View())
    {
      hide IsDiff, MintRound, FoldIn;
      var before, d := state, delta.value;
      var p := ObeyOrders(d.partition, o);
      var cell := new Reducer.NetCell(p.subnet);
      var minted, fault := MintForRound(cell, p.rangeEnd, o.requests);
      if fault.Some? {
        delta := Some(d.(partition := p.(subnet := cell.net)));
        return [Log(before, state), RoundError(fault.value)];
      }
      var net := engine.reduce(cell.net);
      var index := engine.rebuild(net, p.borderStart, p.borderEnd);
      var outgoing := ComputeOutgoingDeltas(d.previous, index);
      var active := AnyActive(index);
      delta := Some(DeltaState(p.(subnet := net, index := index), index, o.round));
      round := o.round;
      state := W.DeltaActive;
      actions := [Log(before, state), RoundResult(o.round, outgoing, minted, active)];
    }

    method HandleFinalStateRequest(r: nat) returns (actions: seq<DeltaAction>)
      requires InDelta(View()) && Valid(View())
      modifies this
      ensures View() == Worker(W.Returning, r, None) && Valid(View())
      ensures actions == [Log(old(state), W.Returning), FinalState(r, old(delta).value.partition)]
    {
      var before, partition := state, delta.value.partition;
      delta := None;
      round := r;
      state := W.Returning;
      actions := [Log(before, state), FinalState(r, partition)];
    }
  }

  method AnyActive(index: Borders) returns (r: bool)
    ensures r == Active(index)
  {
    r := false;
    var todo := index.Keys;
    while todo != {}
      invariant todo <= index.Keys
      invariant r <==> exists k :: k in index && k !in todo && index[k].AgentPort? && index[k].port == 0
      decreases todo
    {
      var k :| k in todo;
      if index[k].AgentPort? && index[k].port == 0 { r := true; }
      todo := todo - {k};
    }
  }

  // ------------------------------------------------------------------------- all runs

  datatype DeltaEvent =
    | InitialPartition(partition: Partition)
    | RoundStart(orders: Payload)
    | FinalStateRequest(round: nat)
    | OtherEvent(event: W.WorkerEvent)

  /** Rounds and final requests come only in a delta state. */
  ghost predicate Next(w: Worker, e: DeltaEvent, engine: Engine, w': Worker, actions: seq<DeltaAction>) {
    match e
    case InitialPartition(p) => w' == Initial(w, p) && actions == [Log(w.state, W.DeltaIdle)]
    case RoundStart(o) => InDelta(w) && RoundStep(w, o, engine, w', actions)
    case FinalStateRequest(r) =>
      && InDelta(w) && w.delta.Some? && w' == Worker(W.Returning, r, None)
      && actions == [Log(w.state, W.Returning), FinalState(r, w.delta.value.partition)]
    case OtherEvent(ev) => w' == w.(state := W.React(w.state, w.round, ev).0) && actions == []
  }

  /** The coordinator's view of the borders: set by the initial partition, then moved by
      every result it hears. */
  function Heard(mirror: Borders, e: DeltaEvent, actions: seq<DeltaAction>): Borders {
    if e.InitialPartition? then e.partition.index
    else if |actions| == 2 && actions[1].RoundResult? then Replay(mirror, actions[1].deltas)
    else mirror
  }

  ghost predicate Run(w: Worker, mirror: Borders, engine: Engine, events: seq<DeltaEvent>)
    decreases |events|
  {
    if events == [] then w == Worker(W.Starting, 0, None) && mirror == map[]
    else
      var k := |events| - 1;
      exists v: Worker, m: Borders, actions: seq<DeltaAction> ::
        Run(v, m, engine, events[..k]) && Next(v, events[k], engine, w, actions) && mirror == Heard(m, events[k], actions)
  }

  ghost predicate Inv(w: Worker, mirror: Borders) {
    Valid(w) && (w.delta.Some? ==> Same(mirror, w.delta.value.previous))
  }

  lemma RoundInv(w: Worker, mirror: Borders, o: Payload, engine: Engine, w': Worker, actions: seq<DeltaAction>)
    requires Inv(w, mirror) && RoundStep(w, o, engine, w', actions) && InDelta(w)
    ensures Inv(w', Heard(mirror, RoundStart(o), actions))
  {
    hide FoldIn, MintRound, Same, IsDiff;
    if actions[1].RoundResult? {
      DiffReplays(mirror, actions[1].deltas, w.delta.value.previous, w'.delta.value.previous);
    }
  }

  lemma NextInv(w: Worker, mirror: Borders, e: DeltaEvent, engine: Engine, w': Worker, actions: seq<DeltaAction>)
    requires Inv(w, mirror) && Next(w, e, engine, w', actions)
    ensures Inv(w', Heard(mirror, e, actions))
  {
    hide RoundStep;
    match e
    case RoundStart(o) => RoundInv(w, mirror, o, engine, w', actions);
    case _ =>
  }

  /** In every run, including rounds that fail, the coordinator that replays what it
      hears knows the borders the worker last reported; and a worker that is asked for a
      round or for its final state holds a partition. */
  lemma {:induction false} ReplayTracksWorker(w: Worker, mirror: Borders, engine: Engine, events: seq<DeltaEvent>)
    requires Run(w, mirror, engine, events)
    ensures Valid(w)
    ensures w.delta.Some? ==> Same(mirror, w.delta.value.previous)
    decreases |events|
  {
    hide Next, Same, Heard;
    if events != [] {
      var k := |events| - 1;
      var v: Worker, m: Borders, actions: seq<DeltaAction> :|
        Run(v, m, engine, events[..k]) && Next(v, events[k], engine, w, actions) && mirror == Heard(m, events[k], actions);
      ReplayTracksWorker(v, m, engine, events[..k]);
      NextInv(v, m, events[k], engine, w, actions);
    }
  }

  /** The orders of a round touch wires and borders only. */
  lemma FoldInKeeps(p: Partition, o: Payload)
    ensures SameIds(p, FoldIn(p, o))
  {
    RepointKeeps(p, o.deltas);
    var q := RepointAll(p, o.deltas);
    DropKeeps(q, o.resolved);
    var r := DropAll(q, o.resolved);
    InsertKeeps(r, o.added);
    ReconnectKeeps(InsertAll(r, o.added), o.reconnections);
  }

  /** The ids in use, the free ids and the id range are the same. */
  predicate SameIds(p: Partition, q: Partition) {
    && q.rangeEnd == p.rangeEnd && q.subnet.nextId == p.subnet.nextId && q.subnet.agents == p.subnet.agents
    && q.subnet.freeList == p.subnet.freeList && q.subnet.recycling == p.subnet.recycling
  }

  lemma {:induction false} RepointKeeps(p: Partition, ds: seq<BorderDelta>)
    ensures SameIds(p, RepointAll(p, ds))
  {
    if ds != [] { RepointKeeps(p, ds[..|ds| - 1]); }
  }

  lemma {:induction false} DropKeeps(p: Partition, ids: seq<nat>)
    ensures SameIds(p, DropAll(p, ids))
  {
    if ids != [] { DropKeeps(p, ids[..|ids| - 1]); }
  }

  lemma {:induction false} InsertKeeps(p: Partition, ds: seq<BorderDelta>)
    ensures SameIds(p, InsertAll(p, ds))
  {
    if ds != [] { InsertKeeps(p, ds[..|ds| - 1]); }
  }

  lemma {:induction false} ReconnectKeeps(p: Partition, rs: seq<Reconnection>)
    ensures SameIds(p, ReconnectAll(p, rs))
  {
    if rs != [] { ReconnectKeeps(p, rs[..|rs| - 1]); }
  }

  /** A round reports a result exactly when each of its requests is good and finds the id
      counter of the stored partition, moved by the slots asked for before it, inside the
      id range. Otherwise nothing is reported and the baseline stays; a completed round
      promotes the index it reports to the baseline. */
  lemma RoundOutcome(w: Worker, o: Payload, engine: Engine, w': Worker, actions: seq<DeltaAction>)
    requires RoundStep(w, o, engine, w', actions)
    ensures var p := w.delta.value.partition;
      (exists i :: 0 <= i < |actions| && actions[i].RoundResult?) <==> Fits(p.subnet, p.rangeEnd, o.requests)
    ensures w'.delta.Some?
    ensures var p := w.delta.value.partition; !Fits(p.subnet, p.rangeEnd, o.requests) ==>
      w'.delta.value.previous == w.delta.value.previous && w'.state == w.state && w'.round == w.round
    ensures var p := w.delta.value.partition; Fits(p.subnet, p.rangeEnd, o.requests) ==>
      w'.delta.value.previous == w'.delta.value.partition.index && w'.state == W.DeltaActive
  {
    hide FoldIn, MintRound, IsDiff, GoodRequest;
    var p, q := w.delta.value.partition, FoldIn(w.delta.value.partition, o);
    FoldInKeeps(p, o);
    RoundExact(q.subnet, q.rangeEnd, o.requests);
    SameFits(p, q, o.requests);
    if Fits(p.subnet, p.rangeEnd, o.requests) { assert actions[1].RoundResult?; }
  }

  lemma SameFits(p: Partition, q: Partition, requests: seq<Request>)
    requires SameIds(p, q)
    ensures Fits(q.subnet, q.rangeEnd, requests) <==> Fits(p.subnet, p.rangeEnd, requests)
  {
    hide GoodRequest;
    assert Spare(q.subnet) == Spare(p.subnet);
  }
}
