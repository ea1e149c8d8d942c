/** Whole arithmetic nets: two numerals or a fold of squares under combinators, with
    one interface wire for the result. */
module Arithmetic {
  import opened Nets
  import NetOps
  import opened Building
  import opened Gadgets
  import opened GadgetTerms
  import opened Church
  import opened ChurchTerms
  import opened Readback
  import opened Builders
  import Reducer
  import Lambda

  // ------------------------------------------------------------- nets with one open port

  /** A well-formed net whose only unwired port is `open`, where it denotes `e`. */
  ghost predicate Ready(n: Net, open: PortRef, e: Lambda.Term) {
    && Growing(n) && n.WellFormed()
    && n.IsPort(open) && n.Target(open) == DISCONNECTED
    && (forall p :: n.IsPort(p) && p != open ==> n.Target(p).AgentPort?)
    && Denotes(n, open, e)
  }

  /** A well-formed net with every port wired, one of them to interface label 0. */
  ghost predicate Closed(n: Net, out: PortRef, e: Lambda.Term) {
    && n.WellFormed()
    && n.IsPort(out) && n.Target(out) == FreePort(0)
    && (forall p :: n.IsPort(p) && p != out ==> n.Target(p).AgentPort?)
    && Denotes(n, out, e)
  }

  lemma EmptyGrows()
    ensures Growing(EMPTY) && EMPTY.WellFormed()
  {}

  lemma FirstNumeral(k: nat)
    ensures Ready(Encode(EMPTY, k), P(0, 0), Lambda.Church(k)) && Encode(EMPTY, k).redexes == []
  {
    hide Encode, Growing, Net.WellFormed, Denotes;
    EmptyGrows();
    EncodeKeeps(EMPTY, k);
    EncodeFrame(EMPTY, k);
    EncodeDenotes(EMPTY, k);
  }

  /** A numeral next to a ready net: two open operands. */
  ghost predicate TwoReady(n: Net, m: PortRef, e: Lambda.Term, o: PortRef, f: Lambda.Term) {
    && Growing(n) && n.WellFormed() && Operands(n, m, o)
    && (forall p :: n.IsPort(p) && p != m && p != o ==> n.Target(p).AgentPort?)
    && Denotes(n, m, e) && Denotes(n, o, f)
  }

  lemma AnotherNumeral(n: Net, open: PortRef, e: Lambda.Term, k: nat)
    requires Ready(n, open, e)
    ensures var r, root := Encode(n, k), P(n.nextId, 0);
      && TwoReady(r, open, e, root, Lambda.Church(k)) && TwoReady(r, root, Lambda.Church(k), open, e)
      && r.redexes == n.redexes
  {
    hide Encode, Growing, Net.WellFormed, Denotes, ChurchSyms;
    var r := Encode(n, k);
    EncodeKeeps(n, k);
    EncodeFrame(n, k);
    EncodeDenotes(n, k);
    DenotesExtends(n, r, open, e);
    OldIds(n);
    forall p | r.IsPort(p) && p != open && p != P(n.nextId, 0) ensures r.Target(p).AgentPort? {
      if p.id < n.nextId { assert n.IsPort(p); }
    }
  }

  /** A combinator on two operands leaves one open port and adds one redex. */
  lemma Combined(n: Net, op: Op, m: PortRef, e: Lambda.Term, o: PortRef, f: Lambda.Term)
    requires TwoReady(n, m, e, o, f)
    ensures var r := Install(n, op, m, o);
      && Ready(r, P(n.nextId + Size(op) - 1, 1), Lambda.Binary(Combinator(op), e, f))
      && r.redexes == n.redexes + [(n.nextId + Size(op) - 2, n.nextId)]
  {
    hide Install, Growing, Net.WellFormed, Denotes, Syms, Size, WireCount, JointAt, Installed, CreateAll, Operands;
    var r, b := Install(n, op, m, o), n.nextId;
    SizePositive(op);
    InstallWires(n, op, m, o);
    InstallKeeps(n, op, m, o);
    InstallRedex(n, op, m, o);
    InstallDenotes(n, op, m, o, e, f);
    CreateAllAdds(n, Syms(op));
    CombinedResult(n, op, m, o, r);
    forall p | r.IsPort(p) && p != P(b + Size(op) - 1, 1) ensures r.Target(p).AgentPort? {
      CombinedPort(n, op, m, o, r, p);
    }
  }

  lemma CombinedResult(n: Net, op: Op, m: PortRef, o: PortRef, r: Net)
    requires Installed(n, op, m, o, r)
    ensures r.IsPort(P(n.nextId + Size(op) - 1, 1)) && Growing(r)
  {
    hide Growing, Added, JointAt;
    FragmentAgent(n, op, m, o, r, Size(op) - 1);
    LastIsCon(op);
  }

  lemma CombinedPort(n: Net, op: Op, m: PortRef, o: PortRef, r: Net, p: PortRef)
    requires Growing(n) && n.WellFormed() && Operands(n, m, o) && Installed(n, op, m, o, r)
    requires forall q :: n.IsPort(q) && q != m && q != o ==> n.Target(q).AgentPort?
    requires r.IsPort(p) && p != P(n.nextId + Size(op) - 1, 1)
    ensures r.Target(p).AgentPort?
  {
    hide Net.WellFormed, JointAt, Size, WireCount;
    SizePositive(op);
    if p == m || p == o {
      OperandWired(n, op, m, o, r);
    } else if p.id < n.nextId {
      assert n.IsPort(p);
    } else {
      Gadgets.PortKept(n, op, m, o, r, p);
    }
  }

  lemma LastIsCon(op: Op)
    ensures SymbolAt(op, Size(op) - 1) == Con
  {}

  /** Wiring the open port to the interface closes the net. */
  lemma ClosedBy(n: Net, open: PortRef, e: Lambda.Term)
    requires Ready(n, open, e)
    ensures var r := NetOps.Connect(n, open, FreePort(0)).(root := None);
      Closed(r, open, e) && r.redexes == n.redexes
  {
    hide Denotes;
    var r := NetOps.Connect(n, open, FreePort(0)).(root := None);
    assert Extends(n, r);
    DenotesExtends(n, r, open, e);
    assert forall p :: r.IsPort(p) <==> n.IsPort(p);
    assert r.Target(open) == FreePort(0);
    assert forall p :: r.IsPort(p) && p != open ==> r.Target(p) == n.Target(p);
  }

  // -------------------------------------------------------------- add, mul and exp

  /** Two numerals, the combinator on top, and the result on the interface. */
  function BinaryNet(op: Op, a: nat, b: nat): Net {
    var second := Encode(EMPTY, a);
    var both := Encode(second, b);
    var whole := Install(both, op, P(0, 0), P(second.nextId, 0));
    NetOps.Connect(whole, P(both.nextId + Size(op) - 1, 1), FreePort(0)).(root := None)
  }

  function Output(op: Op, a: nat, b: nat): PortRef {
    P(Encode(Encode(EMPTY, a), b).nextId + Size(op) - 1, 1)
  }

  /** The net is closed, has one redex, and denotes the combinator applied to the numerals. */
  lemma BinaryMeaning(op: Op, a: nat, b: nat)
    ensures Closed(BinaryNet(op, a, b), Output(op, a, b), Lambda.Binary(Combinator(op), Lambda.Church(a), Lambda.Church(b)))
    ensures |BinaryNet(op, a, b).redexes| == 1
  {
    hide Encode, Install, Ready, TwoReady, Closed, NetOps.Connect;
    var second := Encode(EMPTY, a);
    var both := Encode(second, b);
    FirstNumeral(a);
    AnotherNumeral(second, P(0, 0), Lambda.Church(a), b);
    Combined(both, op, P(0, 0), Lambda.Church(a), P(second.nextId, 0), Lambda.Church(b));
    ClosedBy(Install(both, op, P(0, 0), P(second.nextId, 0)), P(both.nextId + Size(op) - 1, 1),
             Lambda.Binary(Combinator(op), Lambda.Church(a), Lambda.Church(b)));
  }

  /** The net of an operation computes `result`: the term it denotes at its one interface
      port reduces to that numeral. */
  ghost predicate Computes(n: Net, result: nat) {
    exists out, e :: Closed(n, out, e) && Lambda.Reduces(e, Lambda.Church(result))
  }

  method BuildAdd(a: nat, b: nat) returns (cell: Reducer.NetCell)
    requires a <= MAX_CHURCH && b <= MAX_CHURCH
    ensures fresh(cell) && cell.net == BinaryNet(Add, a, b)
  {
    hide Encode, Install, Growing, Operands, NetOps.Connect;
    cell := new Reducer.NetCell(EMPTY);
    OperandsReady(a, b);
    var m := EncodeChurchInto(cell, a);
    var o := EncodeChurchInto(cell, b);
    var out := WireAddInto(cell, P(m, 0), P(o, 0));
    cell.Connect(P(out, 1), FreePort(0));
    cell.net := cell.net.(root := None);
  }

  method BuildMul(a: nat, b: nat) returns (cell: Reducer.NetCell)
    requires a <= MAX_CHURCH && b <= MAX_CHURCH
    ensures fresh(cell) && cell.net == BinaryNet(Mul, a, b)
  {
    hide Encode, Install, Growing, Operands, NetOps.Connect;
    cell := new Reducer.NetCell(EMPTY);
    OperandsReady(a, b);
    var m := EncodeChurchInto(cell, a);
    var o := EncodeChurchInto(cell, b);
    var out := WireMulInto(cell, P(m, 0), P(o, 0));
    cell.Connect(P(out, 1), FreePort(0));
    cell.net := cell.net.(root := None);
  }

  lemma OperandsReady(a: nat, b: nat)
    ensures Growing(EMPTY) && EMPTY.nextId == 0 && Growing(Encode(EMPTY, a))
    ensures var second := Encode(EMPTY, a);
      Growing(Encode(second, b)) && Operands(Encode(second, b), P(0, 0), P(second.nextId, 0))
  {
    hide Encode, Growing, Operands, Net.WellFormed, Denotes;
    EmptyGrows();
    FirstNumeral(a);
    AnotherNumeral(Encode(EMPTY, a), P(0, 0), Lambda.Church(a), b);
  }

  /** encode_nat: a numeral alone, with its outer lambda as the root. */
  function NumeralNet(k: nat): Net {
    Encode(EMPTY, k).(root := Some(P(0, 0)))
  }

  method EncodeNat(k: nat) returns (cell: Reducer.NetCell)
    requires k <= MAX_CHURCH
    ensures fresh(cell) && cell.net == NumeralNet(k)
  {
    hide Encode, Growing;
    cell := new Reducer.NetCell(EMPTY);
    OperandsReady(k, k);
    var root := EncodeChurchInto(cell, k);
    cell.net := cell.net.(root := Some(P(root, 0)));
  }

  /** Exponent zero is encoded directly. */
  function PowerNet(base: nat, exp: nat): Net {
    if exp == 0 then NumeralNet(1) else BinaryNet(Exp, base, exp)
  }

  method BuildExp(base: nat, exp: nat) returns (cell: Reducer.NetCell)
    requires base <= MAX_CHURCH && exp <= MAX_CHURCH
    ensures fresh(cell) && cell.net == PowerNet(base, exp)
  {
    hide Encode, Install, Growing, Operands, NetOps.Connect;
    if exp == 0 {
      cell := EncodeNat(1);
      return;
    }
    cell := new Reducer.NetCell(EMPTY);
    OperandsReady(base, exp);
    var m := EncodeChurchInto(cell, base);
    var o := EncodeChurchInto(cell, exp);
    var out := WireExpInto(cell, P(m, 0), P(o, 0));
    cell.Connect(P(out, 1), FreePort(0));
    cell.net := cell.net.(root := None);
  }

  lemma ComputesBy(op: Op, a: nat, b: nat, k: nat)
    requires Lambda.Reduces(Lambda.Binary(Combinator(op), Lambda.Church(a), Lambda.Church(b)), Lambda.Church(k))
    ensures Computes(BinaryNet(op, a, b), k)
  {
    hide BinaryNet, Output, Closed, Lambda.Reduces, Lambda.Church, Lambda.Binary;
    BinaryMeaning(op, a, b);
  }

  lemma AddComputes(a: nat, b: nat)
    ensures Computes(BinaryNet(Add, a, b), a + b)
  {
    hide BinaryNet, Computes, Lambda.Reduces, Lambda.Church, Lambda.Binary;
    Lambda.AddReduces(a, b);
    ComputesBy(Add, a, b, a + b);
  }

  lemma MulComputes(a: nat, b: nat)
    ensures Computes(BinaryNet(Mul, a, b), Lambda.Product(a, b))
  {
    hide BinaryNet, Computes, Lambda.Reduces, Lambda.Church, Lambda.Binary, Lambda.Product;
    Lambda.ProductReduces(a, b);
    ComputesBy(Mul, a, b, Lambda.Product(a, b));
  }

  /** The combinator computes powers exactly for positive exponents; with exponent zero
      its term ends in a normal form that is no numeral. */
  lemma ExpComputes(base: nat, exp: nat)
    ensures exp >= 1 ==> Computes(BinaryNet(Exp, base, exp), Lambda.Power(base, exp))
    ensures exp == 0 ==> exists out, e ::
      Closed(BinaryNet(Exp, base, exp), out, e) && Lambda.Reduces(e, Lambda.L(Lambda.V(0)))
      && Lambda.Normal(Lambda.L(Lambda.V(0))) && forall k :: Lambda.Church(k) != Lambda.L(Lambda.V(0))
  {
    hide BinaryNet, Output, Closed, Lambda.Reduces, Lambda.Normal, Lambda.Church;
    if exp >= 1 {
      Lambda.ExpReduces(base, exp);
      ComputesBy(Exp, base, exp, Lambda.Power(base, exp));
    } else {
      BinaryMeaning(Exp, base, exp);
      Lambda.ExpOfZero(base);
    }
  }

  /** build_exp computes the power for every exponent. */
  lemma PowerComputes(base: nat, exp: nat)
    ensures exp >= 1 ==> Computes(PowerNet(base, exp), Lambda.Power(base, exp))
    ensures exp == 0 ==> PowerNet(base, exp) == NumeralNet(Lambda.Power(base, 0))
    ensures Denotes(NumeralNet(1), P(0, 0), Lambda.Church(1))
  {
    hide BinaryNet, Encode, Computes, Denotes;
    ExpComputes(base, exp);
    NumeralDenotes(1);
  }

  lemma NumeralDenotes(k: nat)
    ensures Denotes(NumeralNet(k), P(0, 0), Lambda.Church(k)) && NumeralNet(k).WellFormed() && NumeralNet(k).redexes == []
  {
    hide Encode;
    FirstNumeral(k);
    var n := Encode(EMPTY, k);
    assert Extends(n, NumeralNet(k));
    DenotesExtends(n, NumeralNet(k), P(0, 0), Lambda.Church(k));
    RootFrame(n, Some(P(0, 0)));
  }

  lemma RootFrame(n: Net, root: Option<PortRef>)
    requires n.WellFormed()
    ensures n.(root := root).WellFormed()
  {
    var m := n.(root := root);
    assert forall p :: m.IsPort(p) == n.IsPort(p) && m.Target(p) == n.Target(p);
  }

  // ------------------------------------------------------------------ sum of squares

  /** The fold from the last square down to the i-th: the net and its open port. */
  function Squares(i: nat, n: nat): (Net, PortRef)
    requires i <= n
    decreases n - i
  {
    if i == n then (Encode(EMPTY, Lambda.Sq(n)), P(0, 0))
    else
      var (net, acc) := Squares(i + 1, n);
      var more := Encode(net, Lambda.Sq(i));
      (Install(more, Add, P(net.nextId, 0), acc), P(more.nextId + Size(Add) - 1, 1))
  }

  lemma {:induction false} SquaresReady(i: nat, n: nat)
    requires i <= n
    ensures var (net, acc) := Squares(i, n);
      Ready(net, acc, Lambda.SquaresFrom(i, n)) && |net.redexes| == n - i
    decreases n - i
  {
    hide Encode, Install, Ready, TwoReady, Size, Lambda.Sq;
    if i == n {
      FirstNumeral(Lambda.Sq(n));
    } else {
      SquaresReady(i + 1, n);
      var (net, acc) := Squares(i + 1, n);
      var rest := Lambda.SquaresFrom(i + 1, n);
      AnotherNumeral(net, acc, rest, Lambda.Sq(i));
      Combined(Encode(net, Lambda.Sq(i)), Add, P(net.nextId, 0), Lambda.Church(Lambda.Sq(i)), acc, rest);
    }
  }

  function SumNet(n: nat): Net {
    if n <= 1 then NumeralNet(n)
    else
      var (net, acc) := Squares(1, n);
      NetOps.Connect(net, acc, FreePort(0)).(root := None)
  }

  /** For two or more squares the net is fully wired with one interface port, has one
      redex per addition, and computes n(n+1)(2n+1)/6. */
  lemma SumComputes(n: nat)
    requires n >= 2
    ensures Computes(SumNet(n), n * (n + 1) * (2 * n + 1) / 6)
    ensures |SumNet(n).redexes| == n - 1
  {
    hide Squares, Ready, Closed, Lambda.Reduces, NetOps.Connect;
    SquaresReady(1, n);
    var (net, acc) := Squares(1, n);
    ClosedBy(net, acc, Lambda.SquaresFrom(1, n));
    Lambda.SumOfSquaresReduces(n);
    assert Closed(SumNet(n), acc, Lambda.SquaresFrom(1, n));
  }

  method BuildSumOfSquares(n: nat) returns (cell: Reducer.NetCell)
    requires Lambda.Sq(n) <= MAX_CHURCH
    ensures fresh(cell) && cell.net == SumNet(n)
  {
    hide Encode, Install, Growing, Operands, NetOps.Connect, Size, Net.WellFormed, Lambda.Sq;
    if n <= 1 {
      cell := EncodeNat(n);
      return;
    }
    cell := new Reducer.NetCell(EMPTY);
    OperandsReady(Lambda.Sq(n), 0);
    var last := EncodeChurchInto(cell, Lambda.Sq(n));
    var acc := P(last, 0);
    for i := n downto 1
      invariant 1 <= i <= n && (cell.net, acc) == Squares(i, n)
    {
      FoldReady(i, n);
      SquareFits(i, n);
      var term := EncodeChurchInto(cell, Lambda.Sq(i));
      var out := WireAddInto(cell, P(term, 0), acc);
      acc := P(out, 1);
      AddSize();
    }
    cell.Connect(acc, FreePort(0));
    cell.net := cell.net.(root := None);
  }

  lemma AddSize()
    ensures Size(Add) == 11
  {}

  lemma SquareFits(i: nat, n: nat)
    requires i <= n
    ensures Lambda.Sq(i) <= Lambda.Sq(n)
  {}

  lemma FoldReady(i: nat, n: nat)
    requires i < n
    ensures var (net, acc) := Squares(i + 1, n);
      Growing(net) && Growing(Encode(net, Lambda.Sq(i))) && Operands(Encode(net, Lambda.Sq(i)), P(net.nextId, 0), acc)
  {
    hide Encode, Growing, Operands, Net.WellFormed, Denotes, Squares, Lambda.Sq;
    SquaresReady(i + 1, n);
    var (net, acc) := Squares(i + 1, n);
    AnotherNumeral(net, acc, Lambda.SquaresFrom(i + 1, n), Lambda.Sq(i));
  }
}
