/** What the orders of a round do to a worker's partition, told order by order. */
module RoundOrders {
  import opened Nets
  import NetOps
  import opened DeltaWorker

  /** Point a border at a port (at nothing: forget it), forget a border, add a new one, or
      join two ports. */
  datatype Order = Point(id: nat, target: PortRef) | Forget(id: nat) | Add(id: nat, target: PortRef) | Join(x: PortRef, y: PortRef)

  function DeltaOrders(ds: seq<BorderDelta>): seq<Order> {
    seq(|ds|, i requires 0 <= i < |ds| => Point(ds[i].id, ds[i].target))
  }

  function ResolvedOrders(ids: seq<nat>): seq<Order> {
    seq(|ids|, i requires 0 <= i < |ids| => Forget(ids[i]))
  }

  function AddedOrders(ds: seq<BorderDelta>): seq<Order> {
    seq(|ds|, i requires 0 <= i < |ds| => Add(ds[i].id, ds[i].target))
  }

  function JoinOrders(ls: seq<Reconnection>): seq<Order> {
    seq(|ls|, i requires 0 <= i < |ls| => Join(AgentPort(ls[i].id, ls[i].port), ls[i].target))
  }

  /** The orders of a round in the order they are obeyed. */
  function Orders(o: Payload): seq<Order> {
    DeltaOrders(o.deltas) + ResolvedOrders(o.resolved) + AddedOrders(o.added) + JoinOrders(o.reconnections)
  }

  // --------------------------------------------------------- the borders, from the orders alone

  predicate Names(r: Order, k: nat) {
    (r.Point? || r.Forget? || r.Add?) && r.id == k
  }

  /** The local end of border `k` after the orders: the last one that names it decides. */
  function EndAfter(p: Partition, rs: seq<Order>, k: nat): Option<PortRef> {
    if rs == [] then (if k in p.index then Some(p.index[k]) else None)
    else
      var r := rs[|rs| - 1];
      if !Names(r, k) then EndAfter(p, rs[..|rs| - 1], k)
      else if r.Forget? || (r.Point? && r.target == DISCONNECTED) then None else Some(r.target)
  }

  // ----------------------------------------------------------- the ports, from the orders alone

  /** The order cuts the wire of `q`: `q` is the old local end of its border, or is wired to it. */
  predicate Cuts(p: Partition, rs: seq<Order>, k: nat, q: PortRef)
    decreases |rs|, 1
  {
    var e := EndAfter(p, rs, k);
    e.Some? && e.value.AgentPort? && (q == e.value || q == TargetAfter(p, rs, e.value))
  }

  /** Where `q` leads after the orders. */
  function TargetAfter(p: Partition, rs: seq<Order>, q: PortRef): PortRef
    decreases |rs|, 0
  {
    if rs == [] || q.FreePort? || q.id >= p.subnet.arena then p.subnet.Target(q)
    else
      var before, r := rs[..|rs| - 1], rs[|rs| - 1];
      match Writes(p, before, r, q)
      case Some(t) => t
      case None => TargetAfter(p, before, q)
  }

  /** What the next order writes at `q`, if anything. */
  function Writes(p: Partition, rs: seq<Order>, r: Order, q: PortRef): Option<PortRef>
    decreases |rs|, 2
  {
    match r
    case Point(k, u) => if q == u then Some(FreePort(k)) else if Cuts(p, rs, k, q) then Some(DISCONNECTED) else None
    case Forget(k) => if Cuts(p, rs, k, q) then Some(DISCONNECTED) else None
    case Add(k, u) => if q == u then Some(FreePort(k)) else None
    case Join(x, y) => if x == y then None else if q == y then Some(x) else if q == x then Some(y) else None
  }

  // ------------------------------------------------------------------- the code does just that

  function Obey(p: Partition, r: Order): Partition {
    match r
    case Point(k, u) => Repoint(p, BorderDelta(k, u))
    case Forget(k) => Drop(p, k)
    case Add(k, u) => Insert(p, BorderDelta(k, u))
    case Join(x, y) => if x == y then p else p.(subnet := NetOps.Connect(p.subnet, x, y))
  }

  function ObeyAll(p: Partition, rs: seq<Order>): Partition {
    if rs == [] then p else Obey(ObeyAll(p, rs[..|rs| - 1]), rs[|rs| - 1])
  }

  lemma {:induction false} ObeyAppend(p: Partition, rs: seq<Order>, more: seq<Order>)
    ensures ObeyAll(p, rs + more) == ObeyAll(ObeyAll(p, rs), more)
  {
    if more == [] {
      assert rs + more == rs;
    } else {
      assert (rs + more)[..|rs + more| - 1] == rs + more[..|more| - 1];
      ObeyAppend(p, rs, more[..|more| - 1]);
    }
  }

  lemma {:induction false} DeltasObeyed(p: Partition, ds: seq<BorderDelta>)
    ensures RepointAll(p, ds) == ObeyAll(p, DeltaOrders(ds))
  {
    if ds != [] {
      DeltasObeyed(p, ds[..|ds| - 1]);
      assert DeltaOrders(ds)[..|ds| - 1] == DeltaOrders(ds[..|ds| - 1]);
    }
  }

  lemma {:induction false} ResolvedObeyed(p: Partition, ids: seq<nat>)
    ensures DropAll(p, ids) == ObeyAll(p, ResolvedOrders(ids))
  {
    if ids != [] {
      ResolvedObeyed(p, ids[..|ids| - 1]);
      assert ResolvedOrders(ids)[..|ids| - 1] == ResolvedOrders(ids[..|ids| - 1]);
    }
  }

  lemma {:induction false} AddedObeyed(p: Partition, ds: seq<BorderDelta>)
    ensures InsertAll(p, ds) == ObeyAll(p, AddedOrders(ds))
  {
    if ds != [] {
      AddedObeyed(p, ds[..|ds| - 1]);
      assert AddedOrders(ds)[..|ds| - 1] == AddedOrders(ds[..|ds| - 1]);
    }
  }

  lemma {:induction false} JoinsObeyed(p: Partition, ls: seq<Reconnection>)
    ensures ReconnectAll(p, ls) == ObeyAll(p, JoinOrders(ls))
  {
    if ls != [] {
      JoinsObeyed(p, ls[..|ls| - 1]);
      assert JoinOrders(ls)[..|ls| - 1] == JoinOrders(ls[..|ls| - 1]);
    }
  }

  lemma FoldInObeys(p: Partition, o: Payload)
    ensures FoldIn(p, o) == ObeyAll(p, Orders(o))
  {
    var ds, fs, adds, js := DeltaOrders(o.deltas), ResolvedOrders(o.resolved), AddedOrders(o.added), JoinOrders(o.reconnections);
    hide ObeyAll, RepointAll, DropAll, InsertAll, ReconnectAll, DeltaOrders, ResolvedOrders, AddedOrders, JoinOrders;
    DeltasObeyed(p, o.deltas);
    ResolvedObeyed(ObeyAll(p, ds), o.resolved);
    AddedObeyed(ObeyAll(ObeyAll(p, ds), fs), o.added);
    JoinsObeyed(ObeyAll(ObeyAll(ObeyAll(p, ds), fs), adds), o.reconnections);
    ObeyAppend(p, ds, fs);
    ObeyAppend(p, ds + fs, adds);
    ObeyAppend(p, ds + fs + adds, js);
  }

  lemma ObeyArena(p: Partition, r: Order)
    ensures Obey(p, r).subnet.arena == p.subnet.arena
  {}

  lemma {:induction false} ArenaStays(p: Partition, rs: seq<Order>)
    ensures ObeyAll(p, rs).subnet.arena == p.subnet.arena
  {
    if rs != [] {
      ArenaStays(p, rs[..|rs| - 1]);
      ObeyArena(ObeyAll(p, rs[..|rs| - 1]), rs[|rs| - 1]);
      hide Obey;
    }
  }

  /** The borders after the orders are those told above. */
  lemma {:induction false} IndexFollows(p: Partition, rs: seq<Order>, k: nat)
    ensures var q := ObeyAll(p, rs); EndAfter(p, rs, k) == if k in q.index then Some(q.index[k]) else None
  {
    if rs != [] { IndexFollows(p, rs[..|rs| - 1], k); }
  }

  lemma ReleaseTarget(p: Partition, k: nat, q: PortRef)
    ensures Release(p, k).Target(q) ==
      if q.AgentPort? && q.id < p.subnet.arena && k in p.index && p.index[k].AgentPort?
         && (q == p.index[k] || q == p.subnet.Target(p.index[k])) then DISCONNECTED
      else p.subnet.Target(q)
    ensures Release(p, k).arena == p.subnet.arena
  {}

  /** So are the cuts and the wires. */
  lemma {:induction false} CutsFollow(p: Partition, rs: seq<Order>, k: nat, q: PortRef)
    ensures var m := ObeyAll(p, rs);
      Cuts(p, rs, k, q) <==> k in m.index && m.index[k].AgentPort? && (q == m.index[k] || q == m.subnet.Target(m.index[k]))
    decreases |rs|, 1
  {
    IndexFollows(p, rs, k);
    var m := ObeyAll(p, rs);
    if k in m.index { TargetsFollow(p, rs, m.index[k]); }
    hide ObeyAll;
  }

  lemma ObeyTarget(p: Partition, rs: seq<Order>, r: Order, q: PortRef)
    requires q.AgentPort? && q.id < p.subnet.arena
    requires (r.Point? || r.Forget?) ==> (Cuts(p, rs, r.id, q) <==>
      var m := ObeyAll(p, rs); r.id in m.index && m.index[r.id].AgentPort? && (q == m.index[r.id] || q == m.subnet.Target(m.index[r.id])))
    ensures var m, w := ObeyAll(p, rs), Writes(p, rs, r, q);
      Obey(m, r).subnet.Target(q) == if w.Some? then w.value else m.subnet.Target(q)
  {
    var m := ObeyAll(p, rs);
    ArenaStays(p, rs);
    hide ObeyAll, Release, NetOps.Connect, Cuts;
    if r.Point? || r.Forget? { ReleaseTarget(m, r.id, q); }
    if r.Point? { NetOps.ConnectTarget(Release(m, r.id), r.target, FreePort(r.id), q); }
    if r.Add? { NetOps.ConnectTarget(m.subnet, r.target, FreePort(r.id), q); }
    if r.Join? { NetOps.ConnectTarget(m.subnet, r.x, r.y, q); }
  }

  lemma ObeyElsewhere(p: Partition, r: Order, q: PortRef)
    requires q.FreePort? || q.id >= p.subnet.arena
    ensures Obey(p, r).subnet.Target(q) == p.subnet.Target(q)
  {
    hide Release, NetOps.Connect;
    if r.Point? || r.Forget? { ReleaseTarget(p, r.id, q); }
    if r.Point? { NetOps.ConnectTarget(Release(p, r.id), r.target, FreePort(r.id), q); }
    if r.Add? { NetOps.ConnectTarget(p.subnet, r.target, FreePort(r.id), q); }
    if r.Join? { NetOps.ConnectTarget(p.subnet, r.x, r.y, q); }
  }

  lemma {:induction false} TargetsFollow(p: Partition, rs: seq<Order>, q: PortRef)
    ensures ObeyAll(p, rs).subnet.Target(q) == TargetAfter(p, rs, q)
    decreases |rs|, 0
  {
    if rs != [] {
      var before, r := rs[..|rs| - 1], rs[|rs| - 1];
      TargetsFollow(p, before, q);
      if q.FreePort? || q.id >= p.subnet.arena {
        ArenaStays(p, before);
        ObeyElsewhere(ObeyAll(p, before), r, q);
      } else {
        if r.Point? || r.Forget? { CutsFollow(p, before, r.id, q); }
        ObeyTarget(p, before, r, q);
        hide Obey, Writes;
      }
    }
  }

  // --------------------------------------------------------------------------- the theorems

  /** The last order that names a border decides it: after a round the border is the new one of
      that id, else gone if it was resolved, else where the last delta points it, else as before. */
  lemma BordersAfter(p: Partition, o: Payload, k: nat)
    ensures var q := FoldIn(p, o); EndAfter(p, Orders(o), k) == if k in q.index then Some(q.index[k]) else None
    ensures forall i :: 0 <= i < |o.added| && o.added[i].id == k && (forall j :: i < j < |o.added| ==> o.added[j].id != k) ==>
      EndAfter(p, Orders(o), k) == Some(o.added[i].target)
    ensures (forall i :: 0 <= i < |o.added| ==> o.added[i].id != k) && k in o.resolved ==> EndAfter(p, Orders(o), k) == None
    ensures (forall i :: 0 <= i < |o.added| ==> o.added[i].id != k) && k !in o.resolved ==>
      forall i :: 0 <= i < |o.deltas| && o.deltas[i].id == k && (forall j :: i < j < |o.deltas| ==> o.deltas[j].id != k) ==>
        EndAfter(p, Orders(o), k) == if o.deltas[i].target == DISCONNECTED then None else Some(o.deltas[i].target)
    ensures (forall i :: 0 <= i < |o.added| ==> o.added[i].id != k) && k !in o.resolved && (forall i :: 0 <= i < |o.deltas| ==> o.deltas[i].id != k) ==>
      EndAfter(p, Orders(o), k) == if k in p.index then Some(p.index[k]) else None
  {
    FoldInObeys(p, o);
    IndexFollows(p, Orders(o), k);
    hide FoldIn, ObeyAll;
    var ds, fs, adds := DeltaOrders(o.deltas), ResolvedOrders(o.resolved), AddedOrders(o.added);
    Unnamed(p, ds + fs + adds, JoinOrders(o.reconnections), k);
    forall i | 0 <= i < |o.added| && o.added[i].id == k && (forall j :: i < j < |o.added| ==> o.added[j].id != k)
      ensures EndAfter(p, Orders(o), k) == Some(o.added[i].target)
    {
      LastNamed(p, ds + fs, adds, k, i);
    }
    if forall i :: 0 <= i < |o.added| ==> o.added[i].id != k {
      Unnamed(p, ds + fs, adds, k);
      if k in o.resolved {
        var i := LastOf(o.resolved, k);
        LastNamed(p, ds, fs, k, i);
      } else {
        Unnamed(p, ds, fs, k);
        forall i | 0 <= i < |o.deltas| && o.deltas[i].id == k && (forall j :: i < j < |o.deltas| ==> o.deltas[j].id != k)
          ensures EndAfter(p, Orders(o), k) == if o.deltas[i].target == DISCONNECTED then None else Some(o.deltas[i].target)
        {
          LastNamed(p, [], ds, k, i);
          assert [] + ds == ds;
        }
        if forall i :: 0 <= i < |o.deltas| ==> o.deltas[i].id != k {
          Unnamed(p, [], ds, k);
          assert [] + ds == ds;
        }
      }
    }
  }

  lemma {:induction false} LastOf(ids: seq<nat>, k: nat) returns (i: nat)
    requires k in ids
    ensures i < |ids| && ids[i] == k && forall j :: i < j < |ids| ==> ids[j] != k
  {
    if ids[|ids| - 1] == k { i := |ids| - 1; } else { i := LastOf(ids[..|ids| - 1], k); }
  }

  /** Orders that do not name a border leave it. */
  lemma {:induction false} Unnamed(p: Partition, rs: seq<Order>, more: seq<Order>, k: nat)
    requires forall i :: 0 <= i < |more| ==> !Names(more[i], k)
    ensures EndAfter(p, rs + more, k) == EndAfter(p, rs, k)
  {
    if more == [] {
      assert rs + more == rs;
    } else {
      assert (rs + more)[..|rs + more| - 1] == rs + more[..|more| - 1];
      Unnamed(p, rs, more[..|more| - 1], k);
    }
  }

  /** The last order that names it decides it. */
  lemma LastNamed(p: Partition, rs: seq<Order>, more: seq<Order>, k: nat, i: nat)
    requires i < |more| && Names(more[i], k) && forall j :: i < j < |more| ==> !Names(more[j], k)
    ensures EndAfter(p, rs + more, k) == if more[i].Forget? || (more[i].Point? && more[i].target == DISCONNECTED) then None else Some(more[i].target)
  {
    var head := rs + more[..i + 1];
    assert head[|head| - 1] == more[i];
    assert rs + more == head + more[i + 1..];
    Unnamed(p, head, more[i + 1..], k);
  }

  /** The order at `i` writes `q`. */
  predicate WritesAt(p: Partition, rs: seq<Order>, i: nat, q: PortRef) {
    i < |rs| && Writes(p, rs[..i], rs[i], q).Some?
  }

  lemma {:induction false} Unwritten(p: Partition, rs: seq<Order>, i: nat, q: PortRef)
    requires i <= |rs| && q.AgentPort? && q.id < p.subnet.arena && forall j: nat :: i <= j ==> !WritesAt(p, rs, j, q)
    ensures TargetAfter(p, rs, q) == TargetAfter(p, rs[..i], q)
  {
    if i == |rs| {
      assert rs[..i] == rs;
    } else {
      var k := |rs| - 1;
      assert !WritesAt(p, rs, k, q);
      hide Writes;
      forall j: nat | i <= j ensures !WritesAt(p, rs[..k], j, q) {
        assert j < k ==> rs[..k][..j] == rs[..j];
        assert !WritesAt(p, rs, j, q);
      }
      Unwritten(p, rs[..k], i, q);
      assert rs[..k][..i] == rs[..i];
    }
  }

  /** Each port in the arena ends where the last order that writes it leads; one that no order
      writes keeps its target. */
  lemma PortsAfter(p: Partition, o: Payload, q: PortRef)
    requires q.AgentPort? && q.id < p.subnet.arena
    ensures forall i: nat :: WritesAt(p, Orders(o), i, q) && (forall j: nat :: j > i ==> !WritesAt(p, Orders(o), j, q)) ==>
      FoldIn(p, o).subnet.Target(q) == Writes(p, Orders(o)[..i], Orders(o)[i], q).value
    ensures (forall i: nat :: !WritesAt(p, Orders(o), i, q)) ==> FoldIn(p, o).subnet.Target(q) == p.subnet.Target(q)
  {
    var rs := Orders(o);
    FoldInObeys(p, o);
    TargetsFollow(p, rs, q);
    hide FoldIn, ObeyAll, Orders, Writes;
    forall i: nat | WritesAt(p, rs, i, q) && (forall j: nat :: j > i ==> !WritesAt(p, rs, j, q))
      ensures TargetAfter(p, rs, q) == Writes(p, rs[..i], rs[i], q).value
    {
      Unwritten(p, rs, i + 1, q);
      assert rs[..i + 1][..i] == rs[..i] && rs[..i + 1] != [];
    }
    if forall i: nat :: !WritesAt(p, rs, i, q) { Unwritten(p, rs, 0, q); }
  }

  /** The old local end of a border that is resolved or pointed elsewhere is disconnected, if no
      later order writes it. */
  lemma EndReleased(p: Partition, o: Payload, i: nat, e: PortRef)
    requires i < |Orders(o)| && (Orders(o)[i].Forget? || Orders(o)[i].Point?)
    requires EndAfter(p, Orders(o)[..i], Orders(o)[i].id) == Some(e) && e.AgentPort? && e.id < p.subnet.arena
    requires Orders(o)[i].Point? ==> Orders(o)[i].target != e
    requires forall j: nat :: j > i ==> !WritesAt(p, Orders(o), j, e)
    ensures FoldIn(p, o).subnet.Target(e) == DISCONNECTED
  {
    PortsAfter(p, o, e);
    hide FoldIn, Orders, EndAfter;
    assert Cuts(p, Orders(o)[..i], Orders(o)[i].id, e);
    assert WritesAt(p, Orders(o), i, e);
  }

  /** The pairs of principal ports that are ordered to be joined, in order. */
  function OrderedPairs(ls: seq<Reconnection>): seq<(AgentId, AgentId)> {
    if ls == [] then []
    else
      var r := ls[|ls| - 1];
      OrderedPairs(ls[..|ls| - 1])
        + if r.port == 0 && r.target.AgentPort? && r.target.port == 0 && r.target.id != r.id then [(r.id, r.target.id)] else []
  }

  lemma {:induction false} QueueRepoints(p: Partition, ds: seq<BorderDelta>)
    ensures RepointAll(p, ds).subnet.redexes == p.subnet.redexes && RepointAll(p, ds).borderEnd == p.borderEnd
  {
    if ds != [] { QueueRepoints(p, ds[..|ds| - 1]); }
  }

  lemma {:induction false} QueueDrops(p: Partition, ids: seq<nat>)
    ensures DropAll(p, ids).subnet.redexes == p.subnet.redexes && DropAll(p, ids).borderEnd == p.borderEnd
  {
    if ids != [] { QueueDrops(p, ids[..|ids| - 1]); }
  }

  lemma {:induction false} QueueInserts(p: Partition, ds: seq<BorderDelta>)
    ensures var q := InsertAll(p, ds);
      && q.subnet.redexes == p.subnet.redexes && q.borderEnd >= p.borderEnd
      && (forall i :: 0 <= i < |ds| && ds[i].id != U32_MAX ==> ds[i].id < q.borderEnd)
      && (q.borderEnd == p.borderEnd || exists i :: 0 <= i < |ds| && ds[i].id != U32_MAX && q.borderEnd == ds[i].id + 1)
  {
    if ds != [] { QueueInserts(p, ds[..|ds| - 1]); }
  }

  lemma {:induction false} QueueJoins(p: Partition, ls: seq<Reconnection>)
    ensures ReconnectAll(p, ls).subnet.redexes == p.subnet.redexes + OrderedPairs(ls) && ReconnectAll(p, ls).borderEnd == p.borderEnd
  {
    if ls != [] { QueueJoins(p, ls[..|ls| - 1]); }
  }

  /** The queue grows by exactly the ordered pairs. */
  lemma QueueAfter(p: Partition, o: Payload)
    ensures FoldIn(p, o).subnet.redexes == p.subnet.redexes + OrderedPairs(o.reconnections)
  {
    var a := RepointAll(p, o.deltas);
    var b := DropAll(a, o.resolved);
    QueueRepoints(p, o.deltas);
    QueueDrops(a, o.resolved);
    QueueInserts(b, o.added);
    QueueJoins(InsertAll(b, o.added), o.reconnections);
  }

  /** The end of the border range is the least bound above the old one and the new borders. */
  lemma BorderEndAfter(p: Partition, o: Payload)
    ensures var end := FoldIn(p, o).borderEnd;
      && end >= p.borderEnd && (forall i :: 0 <= i < |o.added| && o.added[i].id != U32_MAX ==> o.added[i].id < end)
      && (end == p.borderEnd || exists i :: 0 <= i < |o.added| && o.added[i].id != U32_MAX && end == o.added[i].id + 1)
    ensures FoldIn(p, o).borderStart == p.borderStart && FoldIn(p, o).rangeEnd == p.rangeEnd
  {
    var a := RepointAll(p, o.deltas);
    var b := DropAll(a, o.resolved);
    QueueRepoints(p, o.deltas);
    QueueDrops(a, o.resolved);
    QueueInserts(b, o.added);
    QueueJoins(InsertAll(b, o.added), o.reconnections);
    StartStays(p, o);
  }

  lemma StartStays(p: Partition, o: Payload)
    ensures FoldIn(p, o).borderStart == p.borderStart && FoldIn(p, o).rangeEnd == p.rangeEnd
  {
    FoldInObeys(p, o);
    ObeyStart(p, Orders(o));
    hide FoldIn, ObeyAll, Orders;
  }

  lemma {:induction false} ObeyStart(p: Partition, rs: seq<Order>)
    ensures ObeyAll(p, rs).borderStart == p.borderStart && ObeyAll(p, rs).rangeEnd == p.rangeEnd
  {
    if rs != [] { ObeyStart(p, rs[..|rs| - 1]); }
  }
}
