/** The builders as they run: agents and wires added to a net in place. */
module Builders {
  import opened Nets
  import NetOps
  import opened Building
  import opened Gadgets
  import opened Church
  import Reducer

  /** Makes the next wire of a list. */
  method Wire(cell: Reducer.NetCell, x: PortRef, y: PortRef, ghost base: Net, ghost ws: seq<Joint>)
    requires cell.net == ConnectAll(base, ws)
    modifies cell
    ensures cell.net == ConnectAll(base, ws + [(x, y)])
  {
    hide ConnectAll, NetOps.Connect;
    cell.Connect(x, y);
    ConnectMore(base, ws, (x, y));
  }

  /** Makes the i-th wire of a combinator fragment. */
  method WireStep(cell: Reducer.NetCell, x: PortRef, y: PortRef, ghost base: Net, ghost op: Op, ghost i: nat, ghost b: AgentId,
                  ghost m: PortRef, ghost o: PortRef)
    requires i < WireCount(op) && cell.net == ConnectAll(base, Joints(op, b, m, o)[..i])
    requires JointAt(op, i, b, m, o) == (x, y)
    modifies cell
    ensures cell.net == ConnectAll(base, Joints(op, b, m, o)[..i + 1])
  {
    hide ConnectAll, JointAt;
    var ws := Joints(op, b, m, o);
    Wire(cell, x, y, base, ws[..i]);
    assert ws[..i + 1] == ws[..i] + [(x, y)];
  }

  /** Creates a fresh agent, at the id the counter shows. */
  method Fresh(cell: Reducer.NetCell, s: Symbol, ghost base: Net, ghost syms: seq<Symbol>) returns (id: AgentId)
    requires Growing(base) && cell.net == CreateAll(base, syms)
    modifies cell
    ensures cell.net == CreateAll(base, syms + [s]) && id == base.nextId + |syms|
  {
    hide CreateAll, Growing, NetOps.CreateAgent;
    CreateAllAdds(base, syms);
    CreateOne(cell.net, s);
    CreateMore(base, syms, s);
    id := cell.CreateAgent(s);
  }

  // ------------------------------------------------------------------- combinators

  /** The wires made before the outer applications stay below them. */
  lemma EarlyWires(op: Op, i: nat, b: AgentId, m: PortRef, o: PortRef, c: Net)
    requires i <= WireCount(op) - 4 && b + Size(op) - 2 <= c.arena
    ensures forall w :: w in Joints(op, b, m, o)[..i] ==> InArena(c, w.0) && InArena(c, w.1)
  {
    var ws := Joints(op, b, m, o);
    forall w | w in ws[..i] ensures InArena(c, w.0) && InArena(c, w.1) {
      var j :| 0 <= j < i && ws[..i][j] == w;
      EarlyWire(op, j, b, m, o);
    }
  }

  lemma EarlyWire(op: Op, j: nat, b: AgentId, m: PortRef, o: PortRef)
    requires j < WireCount(op) - 4
    ensures var w := JointAt(op, j, b, m, o);
      w.0.AgentPort? && w.1.AgentPort? && w.0.id < b + Size(op) - 2 && w.1.id < b + Size(op) - 2
  {
    match op
    case Add =>
    case Mul =>
    case Exp =>
  }

  lemma LateWires(op: Op, b: AgentId, m: PortRef, o: PortRef, c: Net)
    requires m.AgentPort? && m.id < b && b + Size(op) - 1 <= c.arena
    ensures forall w :: w in Joints(op, b, m, o)[..WireCount(op) - 2] ==> InArena(c, w.0) && InArena(c, w.1)
  {
    hide JointAt;
    var ws, i := Joints(op, b, m, o), WireCount(op) - 2;
    LastWires(op, b, m, o);
    forall w | w in ws[..i] ensures InArena(c, w.0) && InArena(c, w.1) {
      var j :| 0 <= j < i && ws[..i][j] == w;
      if j < i - 2 { EarlyWire(op, j, b, m, o); }
    }
  }

  /** The last four wires put the combinator on its operands. */
  lemma LastWires(op: Op, b: AgentId, m: PortRef, o: PortRef)
    ensures var k, w := b + Size(op), WireCount(op);
      && JointAt(op, w - 4, b, m, o) == (P(k - 2, 0), P(b, 0))
      && JointAt(op, w - 3, b, m, o) == (P(k - 2, 2), m)
      && JointAt(op, w - 2, b, m, o) == (P(k - 2, 1), P(k - 1, 0))
      && JointAt(op, w - 1, b, m, o) == (P(k - 1, 2), o)
  {}

  /** Applies a combinator whose inner agents and wires are in place to its operands. */
  method ApplyTo(cell: Reducer.NetCell, lamM: AgentId, m: PortRef, o: PortRef, ghost n: Net, ghost op: Op) returns (out: AgentId)
    requires Growing(n) && Operands(n, m, o) && lamM == n.nextId
    requires cell.net == ConnectAll(CreateAll(n, Syms(op)[..Size(op) - 2]), Joints(op, n.nextId, m, o)[..WireCount(op) - 4])
    modifies cell
    ensures cell.net == Install(n, op, m, o) && out == n.nextId + Size(op) - 1
  {
    hide ConnectAll, CreateAll, JointAt, Growing, Size, WireCount, NetOps.CreateAgent;
    ghost var b, k, w, ws, syms := n.nextId, Size(op), WireCount(op), Joints(op, n.nextId, m, o), Syms(op);
    SizePositive(op);
    Counts(op);
    LastWires(op, b, m, o);
    GrowingIds(n, m.id);
    var app1 := FreshLate(cell, Con, n, syms[..k - 2], ws[..w - 4], op, m, o);
    assert syms[..k - 2] + [Con] == syms[..k - 1] by { OuterSymbols(op); }
    ghost var base := CreateAll(n, syms[..k - 1]);
    WireStep(cell, P(app1, 0), P(lamM, 0), base, op, w - 4, b, m, o);
    WireStep(cell, P(app1, 2), m, base, op, w - 3, b, m, o);
    out := FreshLate(cell, Con, n, syms[..k - 1], ws[..w - 2], op, m, o);
    assert syms[..k - 1] + [Con] == syms by { OuterSymbols(op); }
    WireStep(cell, P(app1, 1), P(out, 0), CreateAll(n, syms), op, w - 2, b, m, o);
    WireStep(cell, P(out, 2), o, CreateAll(n, syms), op, w - 1, b, m, o);
    assert ws[..w] == ws;
  }

  lemma Counts(op: Op)
    ensures WireCount(op) >= 8
  {}

  lemma OuterSymbols(op: Op)
    ensures Syms(op)[Size(op) - 2] == Con && Syms(op)[Size(op) - 1] == Con
  {}

  /** Creates an agent after wires that stay below it. */
  method FreshLate(cell: Reducer.NetCell, s: Symbol, ghost n: Net, ghost syms: seq<Symbol>, ghost ws: seq<Joint>, ghost op: Op,
                   ghost m: PortRef, ghost o: PortRef) returns (id: AgentId)
    requires Growing(n) && cell.net == ConnectAll(CreateAll(n, syms), ws) && m.AgentPort? && m.id < n.nextId
    requires (|syms| == Size(op) - 2 && ws == Joints(op, n.nextId, m, o)[..WireCount(op) - 4])
          || (|syms| == Size(op) - 1 && ws == Joints(op, n.nextId, m, o)[..WireCount(op) - 2])
    modifies cell
    ensures cell.net == ConnectAll(CreateAll(n, syms + [s]), ws) && id == n.nextId + |syms|
  {
    hide ConnectAll, CreateAll, Joints, Growing, Size, WireCount, NetOps.CreateAgent, NetOps.NextFree;
    SizePositive(op);
    Counts(op);
    ghost var c := CreateAll(n, syms);
    CreateAllAdds(n, syms);
    if |syms| == Size(op) - 2 && ws == Joints(op, n.nextId, m, o)[..WireCount(op) - 4] {
      EarlyWires(op, WireCount(op) - 4, n.nextId, m, o, c);
    } else {
      LateWires(op, n.nextId, m, o, c);
    }
    CreateBefore(c, ws, s);
    CreateMore(n, syms, s);
    ConnectAllGrowing(c, ws);
    CreateOne(cell.net, s);
    id := cell.CreateAgent(s);
  }

  /** wire_add_into */
  method WireAddInto(cell: Reducer.NetCell, m: PortRef, o: PortRef) returns (out: AgentId)
    requires Growing(cell.net) && Operands(cell.net, m, o)
    modifies cell
    ensures cell.net == Install(old(cell.net), Add, m, o) && out == old(cell.net).nextId + 10
  {
    hide ConnectAll, CreateAll, Growing, Operands, Install;
    ghost var n, b := cell.net, cell.net.nextId;
    var lamM, lamN, lamF, lamX := FourCons(cell, n, []);
    assert [] + [Con, Con, Con, Con] == [Con, Con, Con, Con];
    var appMf, appNf, appNfx, appAll := FourCons(cell, n, [Con, Con, Con, Con]);
    assert [Con, Con, Con, Con] + [Con, Con, Con, Con] == [Con, Con, Con, Con, Con, Con, Con, Con];
    var dupF := Fresh(cell, Dup, n, [Con, Con, Con, Con, Con, Con, Con, Con]);
    ghost var syms, c := Syms(Add)[..9], CreateAll(n, Syms(Add)[..9]);
    assert [Con, Con, Con, Con, Con, Con, Con, Con] + [Dup] == syms;
    assert Joints(Add, b, m, o)[..0] == [] && ConnectAll(c, []) == c by { NoWires(c); }
    WireStep(cell, P(lamM, 2), P(lamN, 0), c, Add, 0, b, m, o);
    WireStep(cell, P(lamN, 2), P(lamF, 0), c, Add, 1, b, m, o);
    WireStep(cell, P(lamF, 2), P(lamX, 0), c, Add, 2, b, m, o);
    WireStep(cell, P(lamM, 1), P(appMf, 0), c, Add, 3, b, m, o);
    WireStep(cell, P(lamN, 1), P(appNf, 0), c, Add, 4, b, m, o);
    WireStep(cell, P(lamF, 1), P(dupF, 0), c, Add, 5, b, m, o);
    WireStep(cell, P(lamX, 1), P(appNfx, 2), c, Add, 6, b, m, o);
    WireStep(cell, P(dupF, 1), P(appMf, 2), c, Add, 7, b, m, o);
    WireStep(cell, P(dupF, 2), P(appNf, 2), c, Add, 8, b, m, o);
    WireStep(cell, P(appNf, 1), P(appNfx, 0), c, Add, 9, b, m, o);
    WireStep(cell, P(appNfx, 1), P(appAll, 2), c, Add, 10, b, m, o);
    WireStep(cell, P(appMf, 1), P(appAll, 0), c, Add, 11, b, m, o);
    WireStep(cell, P(appAll, 1), P(lamX, 2), c, Add, 12, b, m, o);
    out := ApplyTo(cell, lamM, m, o, n, Add);
  }

  lemma NoWires(c: Net)
    ensures ConnectAll(c, []) == c
  {}

  lemma NoAgents(n: Net)
    ensures CreateAll(n, []) == n
  {}

  /** Four constructors in a row. */
  method FourCons(cell: Reducer.NetCell, ghost n: Net, ghost syms: seq<Symbol>)
    returns (i: AgentId, j: AgentId, k: AgentId, l: AgentId)
    requires Growing(n) && (cell.net == CreateAll(n, syms) || (syms == [] && cell.net == n))
    modifies cell
    ensures cell.net == CreateAll(n, syms + [Con, Con, Con, Con])
    ensures i == n.nextId + |syms| && j == i + 1 && k == i + 2 && l == i + 3
  {
    hide CreateAll, Growing;
    NoAgents(n);
    i := Fresh(cell, Con, n, syms);
    j := Fresh(cell, Con, n, syms + [Con]);
    k := Fresh(cell, Con, n, syms + [Con] + [Con]);
    l := Fresh(cell, Con, n, syms + [Con] + [Con] + [Con]);
    assert syms + [Con] + [Con] + [Con] + [Con] == syms + [Con, Con, Con, Con];
  }

  /** wire_mul_into */
  method WireMulInto(cell: Reducer.NetCell, m: PortRef, o: PortRef) returns (out: AgentId)
    requires Growing(cell.net) && Operands(cell.net, m, o)
    modifies cell
    ensures cell.net == Install(old(cell.net), Mul, m, o) && out == old(cell.net).nextId + 6
  {
    hide ConnectAll, CreateAll, Growing, Operands, Install;
    ghost var n, b := cell.net, cell.net.nextId;
    var lamM, lamN, lamF, appNf := FourCons(cell, n, []);
    assert [] + [Con, Con, Con, Con] == [Con, Con, Con, Con];
    var appM := Fresh(cell, Con, n, [Con, Con, Con, Con]);
    ghost var syms, c := Syms(Mul)[..5], CreateAll(n, Syms(Mul)[..5]);
    assert [Con, Con, Con, Con] + [Con] == syms;
    assert Joints(Mul, b, m, o)[..0] == [] && ConnectAll(c, []) == c by { NoWires(c); }
    WireStep(cell, P(lamM, 2), P(lamN, 0), c, Mul, 0, b, m, o);
    WireStep(cell, P(lamN, 2), P(lamF, 0), c, Mul, 1, b, m, o);
    WireStep(cell, P(lamM, 1), P(appM, 0), c, Mul, 2, b, m, o);
    WireStep(cell, P(lamN, 1), P(appNf, 0), c, Mul, 3, b, m, o);
    WireStep(cell, P(lamF, 1), P(appNf, 2), c, Mul, 4, b, m, o);
    WireStep(cell, P(appNf, 1), P(appM, 2), c, Mul, 5, b, m, o);
    WireStep(cell, P(appM, 1), P(lamF, 2), c, Mul, 6, b, m, o);
    out := ApplyTo(cell, lamM, m, o, n, Mul);
  }

  /** The combinator part of build_exp. */
  method WireExpInto(cell: Reducer.NetCell, m: PortRef, o: PortRef) returns (out: AgentId)
    requires Growing(cell.net) && Operands(cell.net, m, o)
    modifies cell
    ensures cell.net == Install(old(cell.net), Exp, m, o) && out == old(cell.net).nextId + 4
  {
    hide ConnectAll, CreateAll, Growing, Operands, Install;
    ghost var n, b := cell.net, cell.net.nextId;
    NoAgents(n);
    var lamM := Fresh(cell, Con, n, []);
    var lamN := Fresh(cell, Con, n, [] + [Con]);
    var appNm := Fresh(cell, Con, n, [] + [Con] + [Con]);
    ghost var syms, c := Syms(Exp)[..3], CreateAll(n, Syms(Exp)[..3]);
    assert [] + [Con] + [Con] + [Con] == syms;
    assert Joints(Exp, b, m, o)[..0] == [] && ConnectAll(c, []) == c by { NoWires(c); }
    WireStep(cell, P(lamM, 2), P(lamN, 0), c, Exp, 0, b, m, o);
    WireStep(cell, P(lamN, 1), P(appNm, 0), c, Exp, 1, b, m, o);
    WireStep(cell, P(lamM, 1), P(appNm, 2), c, Exp, 2, b, m, o);
    WireStep(cell, P(appNm, 1), P(lamN, 2), c, Exp, 3, b, m, o);
    out := ApplyTo(cell, lamM, m, o, n, Exp);
  }

  // ---------------------------------------------------------------------- numerals

  /** encode_church_into: panics above the cap, which is a precondition here. */
  method EncodeChurchInto(cell: Reducer.NetCell, k: nat) returns (lamF: AgentId)
    requires Growing(cell.net) && k <= MAX_CHURCH
    modifies cell
    ensures cell.net == Encode(old(cell.net), k) && lamF == old(cell.net).nextId
  {
    hide ConnectAll, CreateAll, Growing, BodyJoints, NetOps.CreateAgent, NetOps.NextFree;
    ghost var n, b := cell.net, cell.net.nextId;
    NoAgents(n);
    lamF := Fresh(cell, Con, n, []);
    var lamX := Fresh(cell, Con, n, [] + [Con]);
    ghost var two := CreateAll(n, [Con, Con]);
    assert [] + [Con] + [Con] == [Con, Con];
    ghost var first := [(P(b, 2), P(b + 1, 0))];
    NoWires(two);
    Wire(cell, P(lamF, 2), P(lamX, 0), two, []);
    assert [] + first == first;
    CreateAllAdds(n, [Con, Con]);
    ghost var rest := ChurchSyms(k)[2..];
    CreateRest(cell, two, first, k, rest);
    CreateSplit(n, [Con, Con], rest);
    assert ChurchSyms(k) == [Con, Con] + rest;
    ghost var c := CreateAll(n, ChurchSyms(k));
    ConnectBody(cell, lamF, k, c, first);
    ConnectSplit(c, first, BodyJoints(b, k));
  }

  /** The eraser, or the applications and the duplicators. */
  method CreateRest(cell: Reducer.NetCell, ghost two: Net, ghost ws: seq<Joint>, k: nat, ghost rest: seq<Symbol>)
    requires Growing(two) && cell.net == ConnectAll(two, ws)
    requires forall w :: w in ws ==> InArena(two, w.0) && InArena(two, w.1)
    requires rest == ChurchSyms(k)[2..]
    modifies cell
    ensures cell.net == ConnectAll(CreateAll(two, rest), ws)
  {
    hide ConnectAll, CreateAll, Growing, NetOps.CreateAgent, NetOps.NextFree;
    ghost var start := cell.net;
    ConnectAllGrowing(two, ws);
    NoAgents(start);
    if k == 0 {
      var era := Fresh(cell, Era, start, []);
      assert [] + [Era] == rest;
    } else {
      for i := 0 to k
        invariant cell.net == CreateAll(start, Many(Con, i))
      {
        var app := Fresh(cell, Con, start, Many(Con, i));
      }
      assert Many(Con, k) + [] == Many(Con, k);
      for i := 0 to k - 1
        invariant cell.net == CreateAll(start, Many(Con, k) + Many(Dup, i))
      {
        var dup := Fresh(cell, Dup, start, Many(Con, k) + Many(Dup, i));
        assert Many(Con, k) + Many(Dup, i) + [Dup] == Many(Con, k) + Many(Dup, i + 1);
      }
      assert Many(Con, k) + Many(Dup, k - 1) == rest;
    }
    CreateAllBefore(two, ws, rest);
  }

  /** The wires of the body, in the source's order. */
  method ConnectBody(cell: Reducer.NetCell, lamF: AgentId, k: nat, ghost c: Net, ghost before: seq<Joint>)
    requires cell.net == ConnectAll(c, before)
    modifies cell
    ensures cell.net == ConnectAll(ConnectAll(c, before), BodyJoints(lamF, k))
  {
    hide ConnectAll;
    ghost var d, b := cell.net, lamF;
    var lamX := lamF + 1;
    NoWires(d);
    if k == 0 {
      Wire(cell, P(lamF, 1), P(lamF + 2, 0), d, []);
      Wire(cell, P(lamX, 1), P(lamX, 2), d, [] + [(P(b, 1), P(b + 2, 0))]);
      assert [] + [(P(b, 1), P(b + 2, 0))] + [(P(b + 1, 1), P(b + 1, 2))] == BodyJoints(b, k);
    } else if k == 1 {
      Wire(cell, P(lamF, 1), P(lamF + 2, 0), d, []);
      Wire(cell, P(lamX, 1), P(lamF + 2, 2), d, [] + [(P(b, 1), P(b + 2, 0))]);
      Wire(cell, P(lamX, 2), P(lamF + 2, 1), d, [] + [(P(b, 1), P(b + 2, 0))] + [(P(b + 1, 1), P(b + 2, 2))]);
      assert [] + [(P(b, 1), P(b + 2, 0))] + [(P(b + 1, 1), P(b + 2, 2))] + [(P(b + 1, 2), P(b + 2, 1))] == BodyJoints(b, k);
    } else {
      Wire(cell, P(lamF, 1), P(DupId(lamF, k, 0), 0), d, []);
      ghost var ws := [(P(b, 1), P(DupId(b, k, 0), 0))];
      assert [] + ws == ws;
      ConnectDups(cell, lamF, k, d, ws);
      ws := ws + DupJoints(b, k, k - 1);
      Wire(cell, P(lamX, 1), P(AppId(lamF, k - 1), 2), d, ws);
      ws := ws + [(P(b + 1, 1), P(AppId(b, k - 1), 2))];
      ConnectApps(cell, lamF, k, d, ws);
      ws := ws + AppJoints(b, k, 1);
      Wire(cell, P(AppId(lamF, 0), 1), P(lamX, 2), d, ws);
    }
  }

  method ConnectDups(cell: Reducer.NetCell, b: AgentId, k: nat, ghost d: Net, ghost ws: seq<Joint>)
    requires k >= 2 && cell.net == ConnectAll(d, ws)
    modifies cell
    ensures cell.net == ConnectAll(d, ws + DupJoints(b, k, k - 1))
  {
    hide ConnectAll;
    assert ws + DupJoints(b, k, 0) == ws;
    for i := 0 to k - 1
      invariant cell.net == ConnectAll(d, ws + DupJoints(b, k, i))
    {
      ghost var vs := ws + DupJoints(b, k, i);
      var left := (P(DupId(b, k, i), 1), P(AppId(b, i), 0));
      Wire(cell, left.0, left.1, d, vs);
      var right := if i + 1 < k - 1 then (P(DupId(b, k, i), 2), P(DupId(b, k, i + 1), 0))
                   else (P(DupId(b, k, i), 2), P(AppId(b, k - 1), 0));
      Wire(cell, right.0, right.1, d, vs + [left]);
      assert vs + [left] + [right] == ws + DupJoints(b, k, i + 1);
    }
  }

  method ConnectApps(cell: Reducer.NetCell, b: AgentId, k: nat, ghost d: Net, ghost ws: seq<Joint>)
    requires k >= 2 && cell.net == ConnectAll(d, ws)
    modifies cell
    ensures cell.net == ConnectAll(d, ws + AppJoints(b, k, 1))
  {
    hide ConnectAll;
    assert ws + AppJoints(b, k, k) == ws;
    for i := k downto 1
      invariant cell.net == ConnectAll(d, ws + AppJoints(b, k, i))
    {
      Wire(cell, P(AppId(b, i), 1), P(AppId(b, i - 1), 2), d, ws + AppJoints(b, k, i + 1));
      assert ws + AppJoints(b, k, i + 1) + [(P(AppId(b, i), 1), P(AppId(b, i - 1), 2))] == ws + AppJoints(b, k, i);
    }
  }
}
