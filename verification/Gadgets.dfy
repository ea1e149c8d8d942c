/** The combinator fragments: a list of agents and a list of wires between their ports
    and two operand ports, with one port left open for the result. */
module Gadgets {
  import opened Nets
  import opened NetOps
  import opened Building

  datatype Op = Add | Mul | Exp

  /** A port of the fragment's k-th agent, or one of the operands. */
  datatype End = Local(k: nat, port: nat) | First | Second

  function Size(op: Op): nat {
    match op case Add => 11 case Mul => 7 case Exp => 5
  }

  function WireCount(op: Op): nat {
    match op case Add => 17 case Mul => 11 case Exp => 8
  }

  function SymbolAt(op: Op, k: nat): Symbol {
    if op.Add? && k == 8 then Dup else Con
  }

  /** add: lambdas m, n, f, x are agents 0 to 3; applications mf, nf, nfx, all are 4 to 7;
      the duplicator of f is 8; the two outer applications are 9 and 10. */
  function AddWire(i: nat): (End, End) {
    match i
    case 0 => (Local(0, 2), Local(1, 0)) case 1 => (Local(1, 2), Local(2, 0)) case 2 => (Local(2, 2), Local(3, 0))
    case 3 => (Local(0, 1), Local(4, 0)) case 4 => (Local(1, 1), Local(5, 0)) case 5 => (Local(2, 1), Local(8, 0))
    case 6 => (Local(3, 1), Local(6, 2)) case 7 => (Local(8, 1), Local(4, 2)) case 8 => (Local(8, 2), Local(5, 2))
    case 9 => (Local(5, 1), Local(6, 0)) case 10 => (Local(6, 1), Local(7, 2)) case 11 => (Local(4, 1), Local(7, 0))
    case 12 => (Local(7, 1), Local(3, 2)) case 13 => (Local(9, 0), Local(0, 0)) case 14 => (Local(9, 2), First)
    case 15 => (Local(9, 1), Local(10, 0)) case _ => (Local(10, 2), Second)
  }

  /** mul: lambdas m, n, f are 0 to 2; applications nf and m are 3 and 4; the outer ones 5 and 6. */
  function MulWire(i: nat): (End, End) {
    match i
    case 0 => (Local(0, 2), Local(1, 0)) case 1 => (Local(1, 2), Local(2, 0)) case 2 => (Local(0, 1), Local(4, 0))
    case 3 => (Local(1, 1), Local(3, 0)) case 4 => (Local(2, 1), Local(3, 2)) case 5 => (Local(3, 1), Local(4, 2))
    case 6 => (Local(4, 1), Local(2, 2)) case 7 => (Local(5, 0), Local(0, 0)) case 8 => (Local(5, 2), First)
    case 9 => (Local(5, 1), Local(6, 0)) case _ => (Local(6, 2), Second)
  }

  /** exp: lambdas m, n are 0 and 1; the application nm is 2; the outer ones 3 and 4. */
  function ExpWire(i: nat): (End, End) {
    match i
    case 0 => (Local(0, 2), Local(1, 0)) case 1 => (Local(1, 1), Local(2, 0)) case 2 => (Local(0, 1), Local(2, 2))
    case 3 => (Local(2, 1), Local(1, 2)) case 4 => (Local(3, 0), Local(0, 0)) case 5 => (Local(3, 2), First)
    case 6 => (Local(3, 1), Local(4, 0)) case _ => (Local(4, 2), Second)
  }

  function WireAt(op: Op, i: nat): (End, End) {
    match op case Add => AddWire(i) case Mul => MulWire(i) case Exp => ExpWire(i)
  }

  /** Which wire a port is on: the inverse of the lists above. */
  function AddAt(k: nat, port: nat): nat {
    match k
    case 0 => (match port case 0 => 13 case 1 => 3 case _ => 0)
    case 1 => (match port case 0 => 0 case 1 => 4 case _ => 1)
    case 2 => (match port case 0 => 1 case 1 => 5 case _ => 2)
    case 3 => (match port case 0 => 2 case 1 => 6 case _ => 12)
    case 4 => (match port case 0 => 3 case 1 => 11 case _ => 7)
    case 5 => (match port case 0 => 4 case 1 => 9 case _ => 8)
    case 6 => (match port case 0 => 9 case 1 => 10 case _ => 6)
    case 7 => (match port case 0 => 11 case 1 => 12 case _ => 10)
    case 8 => (match port case 0 => 5 case 1 => 7 case _ => 8)
    case 9 => (match port case 0 => 13 case 1 => 15 case _ => 14)
    case _ => if port == 0 then 15 else 16
  }

  function MulAt(k: nat, port: nat): nat {
    match k
    case 0 => (match port case 0 => 7 case 1 => 2 case _ => 0)
    case 1 => (match port case 0 => 0 case 1 => 3 case _ => 1)
    case 2 => (match port case 0 => 1 case 1 => 4 case _ => 6)
    case 3 => (match port case 0 => 3 case 1 => 5 case _ => 4)
    case 4 => (match port case 0 => 2 case 1 => 6 case _ => 5)
    case 5 => (match port case 0 => 7 case 1 => 9 case _ => 8)
    case _ => if port == 0 then 9 else 10
  }

  function ExpAt(k: nat, port: nat): nat {
    match k
    case 0 => (match port case 0 => 4 case 1 => 2 case _ => 0)
    case 1 => (match port case 0 => 0 case 1 => 1 case _ => 3)
    case 2 => (match port case 0 => 1 case 1 => 3 case _ => 2)
    case 3 => (match port case 0 => 4 case 1 => 6 case _ => 5)
    case _ => if port == 0 then 6 else 7
  }

  function At(op: Op, e: End): nat {
    match e
    case Local(k, port) => (match op case Add => AddAt(k, port) case Mul => MulAt(k, port) case Exp => ExpAt(k, port))
    case First => (match op case Add => 14 case Mul => 8 case Exp => 5)
    case Second => WireCount(op) - 1
  }

  predicate Fits(op: Op, e: End) {
    e.Local? ==> e.k < Size(op) && e.port < 3
  }

  /** The port left open. */
  function ResultEnd(op: Op): End {
    Local(Size(op) - 1, 1)
  }

  /** Every wire is where its two ends say it is. */
  lemma WireKnown(op: Op, i: nat)
    requires i < WireCount(op)
    ensures var (x, y) := WireAt(op, i);
      && Fits(op, x) && Fits(op, y) && x != y && x != ResultEnd(op) && y != ResultEnd(op)
      && At(op, x) == i && At(op, y) == i
  {
    match op
    case Add => AddWireKnown(i);
    case Mul =>
    case Exp =>
  }

  lemma AddWireKnown(i: nat)
    requires i < 17
    ensures var (x, y) := AddWire(i);
      && Fits(Add, x) && Fits(Add, y) && x != y && x != ResultEnd(Add) && y != ResultEnd(Add)
      && At(Add, x) == i && At(Add, y) == i
  {}

  /** Every end but the result is on the wire the table names. */
  lemma EndKnown(op: Op, e: End)
    requires Fits(op, e) && e != ResultEnd(op)
    ensures At(op, e) < WireCount(op) && (WireAt(op, At(op, e)).0 == e || WireAt(op, At(op, e)).1 == e)
  {
    match op
    case Add => AddEnd(e);
    case Mul =>
    case Exp =>
  }

  lemma AddEnd(e: End)
    requires Fits(Add, e) && e != ResultEnd(Add)
    ensures At(Add, e) < 17 && (AddWire(At(Add, e)).0 == e || AddWire(At(Add, e)).1 == e)
  {}

  // ----------------------------------------------------------- placing a fragment

  function Syms(op: Op): (s: seq<Symbol>)
    ensures |s| == Size(op)
  {
    seq(Size(op), k requires 0 <= k => SymbolAt(op, k))
  }

  function Place(e: End, b: AgentId, m: PortRef, o: PortRef): PortRef {
    match e
    case Local(k, port) => P(b + k, port)
    case First => m
    case Second => o
  }

  function JointAt(op: Op, i: nat, b: AgentId, m: PortRef, o: PortRef): Joint {
    (Place(WireAt(op, i).0, b, m, o), Place(WireAt(op, i).1, b, m, o))
  }

  function Joints(op: Op, b: AgentId, m: PortRef, o: PortRef): (ws: seq<Joint>)
    ensures |ws| == WireCount(op)
  {
    seq(WireCount(op), i requires 0 <= i => JointAt(op, i, b, m, o))
  }

  /** The fragment put on top of a net: its agents, then its wires. */
  function Install(n: Net, op: Op, m: PortRef, o: PortRef): Net {
    Build(n, Syms(op), Joints(op, n.nextId, m, o))
  }

  /** Two open ports of the old net. */
  ghost predicate Operands(n: Net, m: PortRef, o: PortRef) {
    && n.IsPort(m) && n.IsPort(o) && m != o
    && n.Target(m) == DISCONNECTED && n.Target(o) == DISCONNECTED
  }

  function Unplace(op: Op, b: AgentId, m: PortRef, o: PortRef, q: PortRef): Option<End> {
    if q == m then Some(First)
    else if q == o then Some(Second)
    else if q.AgentPort? && b <= q.id < b + Size(op) && q.port < 3 then Some(Local(q.id - b, q.port))
    else None
  }

  function Wiring(op: Op, b: AgentId, m: PortRef, o: PortRef, q: PortRef): PortRef {
    match Unplace(op, b, m, o, q)
    case None => DISCONNECTED
    case Some(e) =>
      var w := WireAt(op, At(op, e));
      Place(if w.0 == e then w.1 else w.0, b, m, o)
  }

  lemma Placed(op: Op, b: AgentId, m: PortRef, o: PortRef, e: End)
    requires m.AgentPort? && o.AgentPort? && m.id < b && o.id < b && m != o && Fits(op, e)
    ensures Unplace(op, b, m, o, Place(e, b, m, o)) == Some(e)
  {}

  lemma JointsAgree(n: Net, op: Op, b: AgentId, m: PortRef, o: PortRef)
    requires m.AgentPort? && o.AgentPort? && m.id < b && o.id < b && m != o && b + Size(op) <= n.arena
    ensures Agrees(n, Joints(op, b, m, o), q => Wiring(op, b, m, o, q))
  {
    hide WireAt, At;
    var ws := Joints(op, b, m, o);
    forall w | w in ws
      ensures InArena(n, w.0) && InArena(n, w.1) && Wiring(op, b, m, o, w.0) == w.1 && Wiring(op, b, m, o, w.1) == w.0
    {
      var i :| 0 <= i < |ws| && ws[i] == w;
      WireKnown(op, i);
      Placed(op, b, m, o, WireAt(op, i).0);
      Placed(op, b, m, o, WireAt(op, i).1);
    }
  }

  lemma ResultIsFree(op: Op, b: AgentId, m: PortRef, o: PortRef)
    requires m.AgentPort? && o.AgentPort? && m.id < b && o.id < b
    ensures !IsEnd(Joints(op, b, m, o), Place(ResultEnd(op), b, m, o))
  {
    hide WireAt, At;
    var ws := Joints(op, b, m, o);
    forall w | w in ws ensures w.0 != Place(ResultEnd(op), b, m, o) && w.1 != Place(ResultEnd(op), b, m, o) {
      var i :| 0 <= i < |ws| && ws[i] == w;
      WireKnown(op, i);
    }
  }

  // ------------------------------------------------------------- what it amounts to

  /** `r` is `n` with the fragment on top: its wires are in place, its result port is
      open, and of the old net only the operand ports changed. */
  ghost predicate Installed(n: Net, op: Op, m: PortRef, o: PortRef, r: Net) {
    var b := n.nextId;
    && Added(n, r, Syms(op)) && Growing(r)
    && (forall i :: 0 <= i < WireCount(op) ==> Linked(r, JointAt(op, i, b, m, o).0, JointAt(op, i, b, m, o).1))
    && (forall p: PortRef :: p.AgentPort? && p.id < b && p != m && p != o ==> r.Target(p) == n.Target(p))
    && r.Target(P(b + Size(op) - 1, 1)) == DISCONNECTED
    && r == n.(agents := r.agents, ports := r.ports, arena := r.arena, nextId := r.nextId, redexes := r.redexes)
  }

  /** The operands are below the fragment, which fits the arena once it is created. */
  lemma InstallBase(n: Net, op: Op, m: PortRef, o: PortRef)
    requires Growing(n) && Operands(n, m, o)
    ensures var b, c := n.nextId, CreateAll(n, Syms(op));
      && m.AgentPort? && o.AgentPort? && m.id < b && o.id < b && Size(op) >= 5
      && Agrees(c, Joints(op, b, m, o), q => Wiring(op, b, m, o, q))
      && c == n.(agents := c.agents, arena := c.arena, nextId := c.nextId)
      && Added(n, c, Syms(op)) && Growing(c)
  {
    hide WireAt, At, Growing, Added, Size, WireCount, Agrees;
    CreateAllAdds(n, Syms(op));
    GrowingIds(n, m.id);
    GrowingIds(n, o.id);
    SizePositive(op);
    JointsAgree(CreateAll(n, Syms(op)), op, n.nextId, m, o);
  }

  lemma InstallTarget(n: Net, op: Op, m: PortRef, o: PortRef, p: PortRef)
    requires Growing(n) && Operands(n, m, o) && p.AgentPort?
    ensures var ws := Joints(op, n.nextId, m, o);
      Install(n, op, m, o).Target(p) == if IsEnd(ws, p) then Wiring(op, n.nextId, m, o, p) else n.Target(p)
  {
    hide Wiring, Joints, Growing, Agrees, IsEnd, Operands, CreateAll, ConnectAll;
    InstallBase(n, op, m, o);
    ConnectAllTarget(CreateAll(n, Syms(op)), Joints(op, n.nextId, m, o), q => Wiring(op, n.nextId, m, o, q), p);
  }

  lemma InstallLinked(n: Net, op: Op, m: PortRef, o: PortRef, i: nat)
    requires Growing(n) && Operands(n, m, o) && i < WireCount(op)
    ensures var w := JointAt(op, i, n.nextId, m, o); Linked(Install(n, op, m, o), w.0, w.1)
  {
    hide Wiring, Growing, Agrees, CreateAll, ConnectAll, WireCount, WireAt, Place;
    InstallBase(n, op, m, o);
    var ws, w := Joints(op, n.nextId, m, o), JointAt(op, i, n.nextId, m, o);
    ConnectAllLinked(CreateAll(n, Syms(op)), ws, q => Wiring(op, n.nextId, m, o, q));
    assert ws[i] == w && ws[i] in ws;
    JointPorts(n, op, m, o, i);
  }

  lemma JointPorts(n: Net, op: Op, m: PortRef, o: PortRef, i: nat)
    requires Operands(n, m, o)
    ensures JointAt(op, i, n.nextId, m, o).1.AgentPort?
  {
    hide WireAt;
  }

  lemma InstallWires(n: Net, op: Op, m: PortRef, o: PortRef)
    requires Growing(n) && Operands(n, m, o)
    ensures Installed(n, op, m, o, Install(n, op, m, o))
  {
    hide Wiring, Joints, Growing, Agrees, IsEnd, Operands, CreateAll, Linked, Added, Size, WireCount, JointAt;
    var b, r := n.nextId, Install(n, op, m, o);
    InstallBase(n, op, m, o);
    forall i | 0 <= i < WireCount(op) ensures Linked(r, JointAt(op, i, b, m, o).0, JointAt(op, i, b, m, o).1) {
      InstallLinked(n, op, m, o, i);
    }
    forall p: PortRef | p.AgentPort? && p.id < b && p != m && p != o ensures r.Target(p) == n.Target(p) {
      OldNotEnd(op, b, m, o, p);
      InstallTarget(n, op, m, o, p);
    }
    var last := P(b + Size(op) - 1, 1);
    ResultIsFree(op, b, m, o);
    InstallTarget(n, op, m, o, last);
    FreshIsOpen(n, last);
    ConnectAllGrowing(CreateAll(n, Syms(op)), Joints(op, b, m, o));
    AddedFrame(n, CreateAll(n, Syms(op)), r, Syms(op));
  }

  lemma GrowingIds(n: Net, id: AgentId)
    requires Growing(n) && id in n.agents
    ensures id < n.arena <= n.nextId
  {}

  lemma SizePositive(op: Op)
    ensures Size(op) >= 5
  {}

  lemma OldNotEnd(op: Op, b: AgentId, m: PortRef, o: PortRef, p: PortRef)
    requires p.AgentPort? && p.id < b && p != m && p != o
    ensures !IsEnd(Joints(op, b, m, o), p)
  {
    hide WireAt;
    var ws := Joints(op, b, m, o);
    forall w | w in ws ensures w.0 != p && w.1 != p {
      var i :| 0 <= i < |ws| && ws[i] == w;
    }
  }

  // ------------------------------------------------------ what every fragment keeps

  lemma NewPortWired(n: Net, op: Op, m: PortRef, o: PortRef, r: Net, e: End) returns (d: End)
    requires Installed(n, op, m, o, r) && Fits(op, e) && e != ResultEnd(op)
    ensures Fits(op, d) && d != e && Linked(r, Place(e, n.nextId, m, o), Place(d, n.nextId, m, o))
  {
    hide WireAt, At, Added, Growing;
    EndKnown(op, e);
    var i := At(op, e);
    WireKnown(op, i);
    d := if WireAt(op, i).0 == e then WireAt(op, i).1 else WireAt(op, i).0;
    var w := JointAt(op, i, n.nextId, m, o);
    assert Linked(r, w.0, w.1);
  }

  lemma PlaceLegal(n: Net, op: Op, m: PortRef, o: PortRef, r: Net, e: End)
    requires Growing(n) && Operands(n, m, o) && Installed(n, op, m, o, r) && Fits(op, e)
    ensures r.IsPort(Place(e, n.nextId, m, o))
  {
    hide WireAt, At;
    if e.Local? { assert r.agents[n.nextId + e.k] == Syms(op)[e.k]; }
  }

  /** A fragment keeps the net symmetric and wires every new port but its result. */
  lemma InstallKeeps(n: Net, op: Op, m: PortRef, o: PortRef)
    requires Growing(n) && Operands(n, m, o) && n.WellFormed()
    ensures var r, b := Install(n, op, m, o), n.nextId;
      && r.WellFormed()
      && (forall p :: r.IsPort(p) && p.id >= b && p != P(b + Size(op) - 1, 1) ==> r.Target(p).AgentPort?)
      && r.Target(P(b + Size(op) - 1, 1)) == DISCONNECTED
      && r.Target(m) != DISCONNECTED && r.Target(o) != DISCONNECTED
  {
    hide WireAt, At, Net.WellFormed, Install, Growing, Added, Linked, JointAt, Size, WireCount;
    InstallWires(n, op, m, o);
    SizePositive(op);
    var r, b := Install(n, op, m, o), n.nextId;
    forall p | r.IsPort(p)
      ensures r.Target(p).AgentPort? ==> r.IsPort(r.Target(p)) && r.Target(r.Target(p)) == p
      ensures p.id >= b && p != P(b + Size(op) - 1, 1) ==> r.Target(p).AgentPort?
    {
      PortKept(n, op, m, o, r, p);
    }
    OperandWired(n, op, m, o, r);
    GrowingArena(r);
    SymmetricWellFormed(r);
  }

  lemma OperandWired(n: Net, op: Op, m: PortRef, o: PortRef, r: Net)
    requires Operands(n, m, o) && Installed(n, op, m, o, r)
    ensures r.Target(m).AgentPort? && r.Target(o).AgentPort?
  {
    hide Growing, Added, JointAt;
    var d := NewPortWired(n, op, m, o, r, First);
    var e := NewPortWired(n, op, m, o, r, Second);
  }

  lemma GrowingArena(r: Net)
    requires Growing(r)
    ensures forall id :: id in r.agents ==> id < r.arena
  {}

  lemma PortKept(n: Net, op: Op, m: PortRef, o: PortRef, r: Net, p: PortRef)
    requires Growing(n) && Operands(n, m, o) && n.WellFormed() && Installed(n, op, m, o, r) && r.IsPort(p)
    ensures r.Target(p).AgentPort? ==> r.IsPort(r.Target(p)) && r.Target(r.Target(p)) == p
    ensures p.id >= n.nextId && p != P(n.nextId + Size(op) - 1, 1) ==> r.Target(p).AgentPort?
  {
    hide WireAt, At, Size, WireCount;
    var b := n.nextId;
    SizePositive(op);
    if p == m || p == o || p.id >= b {
      var e := if p == m then First else if p == o then Second else Local(p.id - b, p.port);
      assert p == Place(e, b, m, o) && Fits(op, e);
      if e != ResultEnd(op) {
        var d := NewPortWired(n, op, m, o, r, e);
        PlaceLegal(n, op, m, o, r, d);
      }
    } else {
      OldWire(n, op, m, o, r, p);
    }
  }

  lemma OldWire(n: Net, op: Op, m: PortRef, o: PortRef, r: Net, p: PortRef)
    requires Growing(n) && Operands(n, m, o) && n.WellFormed() && Installed(n, op, m, o, r)
    requires r.IsPort(p) && p.id < n.nextId && p != m && p != o
    ensures r.Target(p).AgentPort? ==> r.IsPort(r.Target(p)) && r.Target(r.Target(p)) == p
  {
    hide WireAt, At, Size, WireCount;
    assert n.IsPort(p);
    var q := n.Target(p);
    if q.AgentPort? { assert n.IsPort(q) && n.Target(q) == p && q.id < n.nextId; }
  }

  // --------------------------------------------------------------- one active pair

  lemma OnlyActive(op: Op, i: nat, b: AgentId, m: PortRef, o: PortRef)
    requires i < WireCount(op)
    ensures var w := JointAt(op, i, b, m, o);
      Principals(w.0, w.1) <==> i == At(op, Local(0, 0))
    ensures i == At(op, Local(0, 0)) ==> JointAt(op, i, b, m, o) == (P(b + Size(op) - 2, 0), P(b, 0))
  {
    match op
    case Add =>
    case Mul =>
    case Exp =>
  }

  lemma {:induction false} ActiveUpTo(op: Op, i: nat, b: AgentId, m: PortRef, o: PortRef)
    requires i <= WireCount(op)
    ensures ActivePairs(Joints(op, b, m, o)[..i]) == if i > At(op, Local(0, 0)) then [(b + Size(op) - 2, b)] else []
  {
    hide At, JointAt, Principals;
    if i > 0 {
      ActiveUpTo(op, i - 1, b, m, o);
      OnlyActive(op, i - 1, b, m, o);
      var ws := Joints(op, b, m, o);
      assert ws[..i][..i - 1] == ws[..i - 1] && ws[..i][i - 1] == JointAt(op, i - 1, b, m, o);
    }
  }

  /** A fragment adds exactly one redex: its first lambda facing its inner application. */
  lemma InstallRedex(n: Net, op: Op, m: PortRef, o: PortRef)
    ensures Install(n, op, m, o).redexes == CreateAll(n, Syms(op)).redexes + [(n.nextId + Size(op) - 2, n.nextId)]
  {
    hide JointAt, ActivePairs, ConnectAll, CreateAll, Syms;
    var ws := Joints(op, n.nextId, m, o);
    ConnectAllRedexes(CreateAll(n, Syms(op)), ws);
    ActiveUpTo(op, WireCount(op), n.nextId, m, o);
    assert ws[..WireCount(op)] == ws;
    EndKnown(op, Local(0, 0));
  }
}
