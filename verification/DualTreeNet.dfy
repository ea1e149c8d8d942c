/** What the dual-tree stream assembles to, for every chunk size. */
module DualTreeNet {
  import opened Nets
  import opened Assembler
  import opened AssemblerExact
  import opened AssemblerWires
  import opened AssemblerResult
  import opened TreeNumbering
  import opened DualTree

  predicate TreePort(depth: nat, p: PortRef) {
    p.AgentPort? && p.id < Total(depth) && p.port <= 2
  }

  // ------------------------------------------------------------------- the wiring

  /** The wiring is symmetric. */
  lemma WiringSymmetric(depth: nat, p: PortRef)
    requires depth >= 1 && TreePort(depth, p) && Wiring(depth, p).AgentPort?
    ensures var q := Wiring(depth, p); TreePort(depth, q) && q != p && Wiring(depth, q) == p
  {
    hide Position, NodeAt, Nodes, Node, Id, Wiring;
    RootLast(depth);
    var right, i := IsRight(depth, p.id), Node(depth, p.id);
    NodeId(depth, p.id);
    if p.port == 0 {
      if i == 0 {
        RootWired(depth, right);
        RootWired(depth, !right);
      } else {
        ChildWired(depth, right, (i - 1) / 2, if i % 2 == 1 then 1 else 2);
      }
    } else if 2 * i + p.port < Nodes(depth) {
      ChildWired(depth, right, i, p.port);
    } else {
      LeafWired(depth, p);
    }
  }

  lemma RootWired(depth: nat, right: bool)
    requires depth >= 1 && 0 < Nodes(depth)
    ensures Wiring(depth, AgentPort(Id(depth, right, 0), 0)) == AgentPort(Id(depth, !right, 0), 0)
  {
    hide Position, NodeAt, Nodes, Node;
    IdNode(depth, right, 0);
  }

  /** A node and its child on `port` are joined, seen from both sides. */
  lemma ChildWired(depth: nat, right: bool, i: nat, port: nat)
    requires 1 <= port <= 2 && 2 * i + port < Nodes(depth)
    ensures var c := 2 * i + port;
      && Wiring(depth, AgentPort(Id(depth, right, i), port)) == AgentPort(Id(depth, right, c), 0)
      && Wiring(depth, AgentPort(Id(depth, right, c), 0)) == AgentPort(Id(depth, right, i), port)
  {
    hide Position, NodeAt, Nodes, Node, Id;
    IdNode(depth, right, i);
    IdNode(depth, right, 2 * i + port);
  }

  lemma LeafWired(depth: nat, p: PortRef)
    requires TreePort(depth, p) && p.port > 0 && 2 * Node(depth, p.id) + p.port >= Nodes(depth)
    ensures Wiring(depth, p).FreePort?
  {
    hide Position, NodeAt, Nodes, Node, Id;
  }

  /** Labels are above every agent id and tell the port they hang on. */
  lemma WiringLabels(depth: nat, p: PortRef, q: PortRef)
    requires TreePort(depth, p) && Wiring(depth, p).FreePort?
    ensures Wiring(depth, p).name >= Total(depth)
    ensures depth <= 30 ==> Wiring(depth, p).name < U32_MAX
    ensures TreePort(depth, q) && Wiring(depth, q) == Wiring(depth, p) ==> q == p
  {
    hide Position, NodeAt, Node, Id;
    NodeId(depth, p.id);
    if depth <= 30 {
      Pow2Monotone(depth, 30);
      Pow2Values();
    }
    if TreePort(depth, q) { NodeId(depth, q.id); }
  }

  /** The stream lists a wire from this end. */
  predicate IsSource(depth: nat, p: PortRef) {
    && TreePort(depth, p)
    && (var i := Node(depth, p.id);
        if p.port == 0 then i > 0 || !IsRight(depth, p.id) else 2 * i + p.port >= Nodes(depth))
  }

  /** Exactly one end of every wire is a source. */
  lemma SourceOneSide(depth: nat, p: PortRef)
    requires depth >= 1 && TreePort(depth, p)
    ensures Wiring(depth, p).AgentPort? ==> IsSource(depth, Wiring(depth, p)) != IsSource(depth, p)
    ensures Wiring(depth, p).FreePort? ==> IsSource(depth, p)
  {
    hide Position, NodeAt, Nodes, Node, Id;
    RootLast(depth);
    var right, i := IsRight(depth, p.id), Node(depth, p.id);
    IdNode(depth, !right, 0);
    if p.port == 0 {
      if i > 0 { IdNode(depth, right, (i - 1) / 2); }
    } else if 2 * i + p.port < Nodes(depth) {
      IdNode(depth, right, 2 * i + p.port);
    }
  }

  // --------------------------------------------------------- the wires of the stream

  function WireFrom(depth: nat, p: PortRef): seq<Wire> {
    if IsSource(depth, p) then [Wire(p, Wiring(depth, p))] else []
  }

  /** The wires of one node, in the order they are listed. */
  function NodeWires(depth: nat, e: AgentId): seq<Wire>
    requires e < Total(depth)
  {
    (if Node(depth, e) > 0 then WireFrom(depth, AgentPort(e, 0)) else [])
      + WireFrom(depth, AgentPort(e, 1)) + WireFrom(depth, AgentPort(e, 2))
      + (if Node(depth, e) == 0 then WireFrom(depth, AgentPort(e, 0)) else [])
  }

  function TreeWires(depth: nat, k: nat): seq<Wire>
    requires k <= Total(depth)
  {
    if k == 0 then [] else TreeWires(depth, k - 1) + NodeWires(depth, k - 1)
  }

  lemma WiresIn1(d: Directive)
    ensures WiresIn([d]) == [WireOf(d)]
  {
    assert [d][..0] == [];
  }

  lemma ParentWires(depth: nat, e: AgentId, start: nat, end: nat)
    requires e < Total(depth)
    ensures WiresIn(ParentDirective(depth, e, start, end))
         == if Node(depth, e) > 0 then WireFrom(depth, AgentPort(e, 0)) else []
  {
    hide Position, NodeAt, Nodes, Node, Id;
    var ds := ParentDirective(depth, e, start, end);
    if ds != [] { WiresIn1(ds[0]); }
  }

  lemma LeafWires(depth: nat, e: AgentId, port: nat)
    requires e < Total(depth) && 1 <= port <= 2
    ensures WiresIn(LeafDirective(depth, e, port)) == WireFrom(depth, AgentPort(e, port))
  {
    hide Position, NodeAt, Nodes, Node, Id;
    var ds := LeafDirective(depth, e, port);
    if ds != [] { WiresIn1(ds[0]); }
  }

  lemma RootWires(depth: nat, e: AgentId)
    requires depth >= 1 && e < Total(depth)
    ensures WiresIn(RootDirective(depth, e)) == if Node(depth, e) == 0 then WireFrom(depth, AgentPort(e, 0)) else []
  {
    hide Position, NodeAt, Nodes, Node, Id;
    RootLast(depth);
    var ds := RootDirective(depth, e);
    IdNode(depth, false, 0);
    NodeId(depth, e);
    if ds != [] { WiresIn1(ds[0]); }
  }

  /** Which wires a node lists does not depend on the batch it is in. */
  lemma NodeDirectivesWires(depth: nat, e: AgentId, start: nat, end: nat)
    requires depth >= 1 && e < Total(depth)
    ensures WiresIn(NodeDirectives(depth, e, start, end)) == NodeWires(depth, e)
  {
    hide Node, ParentDirective, LeafDirective, RootDirective, WireFrom;
    var a, b, c, d := ParentDirective(depth, e, start, end), LeafDirective(depth, e, 1), LeafDirective(depth, e, 2),
                      RootDirective(depth, e);
    ParentWires(depth, e, start, end);
    LeafWires(depth, e, 1);
    LeafWires(depth, e, 2);
    RootWires(depth, e);
    WiresInConcat(a, b);
    WiresInConcat(a + b, c);
    WiresInConcat(a + b + c, d);
  }

  lemma {:induction false} BatchWires(depth: nat, start: nat, end: nat, k: nat)
    requires depth >= 1 && start <= k <= Total(depth)
    ensures TreeWires(depth, start) + WiresIn(DirectivesUpTo(depth, start, end, k)) == TreeWires(depth, k)
  {
    hide NodeDirectives, NodeWires, Total;
    if k > start {
      BatchWires(depth, start, end, k - 1);
      NodeDirectivesWires(depth, k - 1, start, end);
      WiresInConcat(DirectivesUpTo(depth, start, end, k - 1), NodeDirectives(depth, k - 1, start, end));
    }
  }

  /** The wires of the first `k` batches are the wires of the nodes they hold. */
  lemma {:induction false} StreamWires(depth: nat, chunk: nat, k: nat)
    requires depth >= 1 && chunk >= 1 && k <= BatchCount(chunk, Total(depth))
    ensures Wires(TreeStream(depth, chunk)[..k]) == TreeWires(depth, Cut(k, chunk, Total(depth)))
  {
    hide Total, TreeStream, BatchCount, TreeWires, Cut;
    var s, total := TreeStream(depth, chunk), Total(depth);
    if k == 0 {
      CutStart(chunk, total);
      NoWires(depth);
    } else {
      StreamWires(depth, chunk, k - 1);
      assert s[..k][..k - 1] == s[..k - 1];
      TreeStreamAt(depth, chunk, k - 1);
      var start, end := Cut(k - 1, chunk, total), Cut(k, chunk, total);
      BatchWires(depth, start, end, end);
    }
  }

  lemma NoWires(depth: nat)
    ensures TreeWires(depth, 0) == []
  {}

  // ----------------------------------------------------------- every port, once

  predicate Lists(depth: nat, w: Wire) {
    IsSource(depth, w.p) && w.q == Wiring(depth, w.p)
  }

  predicate ListsAt(depth: nat, w: Wire, e: AgentId) {
    Lists(depth, w) && w.p.id == e
  }

  predicate ListsBelow(depth: nat, w: Wire, k: nat) {
    Lists(depth, w) && w.p.id < k
  }

  lemma NodeWiresListed(depth: nat, e: AgentId)
    requires e < Total(depth)
    ensures DistinctSources(NodeWires(depth, e))
    ensures forall w :: w in NodeWires(depth, e) <==> ListsAt(depth, w, e)
  {
    hide Node, Wiring, Total;
    var ws := NodeWires(depth, e);
    forall w | ListsAt(depth, w, e) ensures w in ws {
      assert w.p == AgentPort(e, w.p.port);
      assert w in WireFrom(depth, w.p);
    }
  }

  lemma ListsStep(depth: nat, k: nat)
    requires k > 0
    ensures forall w :: ListsBelow(depth, w, k) <==> ListsBelow(depth, w, k - 1) || ListsAt(depth, w, k - 1)
    ensures forall u, v :: ListsBelow(depth, u, k - 1) && ListsAt(depth, v, k - 1) ==> u.p != v.p
  {
    hide IsSource, Wiring;
  }

  lemma ListsNone(depth: nat)
    ensures forall w :: !ListsBelow(depth, w, 0)
  {}

  lemma {:induction false} TreeWiresListed(depth: nat, k: nat)
    requires k <= Total(depth)
    ensures DistinctSources(TreeWires(depth, k))
    ensures forall w :: w in TreeWires(depth, k) <==> ListsBelow(depth, w, k)
  {
    hide NodeWires, Total, ListsAt, Lists;
    ListsNone(depth);
    if k > 0 {
      TreeWiresListed(depth, k - 1);
      NodeWiresListed(depth, k - 1);
      ListsStep(depth, k);
      hide ListsBelow;
      DistinctConcat(TreeWires(depth, k - 1), NodeWires(depth, k - 1));
    }
  }

  ghost predicate AllCon(agents: map<AgentId, Symbol>, k: nat) {
    && (forall id: AgentId :: id in agents <==> id < k)
    && (forall id :: id in agents ==> agents[id] == Con)
  }

  lemma TreeWiresProper(depth: nat, agents: map<AgentId, Symbol>)
    requires 1 <= depth <= 30 && AllCon(agents, Total(depth))
    ensures Linear(TreeWires(depth, Total(depth))) && AllLegal(agents, TreeWires(depth, Total(depth)))
  {
    hide Total, Wiring, TreeWires, Linear;
    var ws := TreeWires(depth, Total(depth));
    TreeWiresListed(depth, Total(depth));
    forall w | w in ws
      ensures w.p != w.q && (w.q.AgentPort? ==> Wiring(depth, w.q) == w.p && !IsSource(depth, w.q)) && Legal(agents, w)
    {
      assert ListsBelow(depth, w, Total(depth));
      SourceOneSide(depth, w.p);
      if w.q.AgentPort? { WiringSymmetric(depth, w.p); } else { WiringLabels(depth, w.p, w.p); }
    }
    OneSidedLinear(ws, p => Wiring(depth, p));
  }

  // ------------------------------------------------------------------- the agents

  lemma {:induction false} ConAgentsIds(start: nat, k: nat)
    requires start <= k
    ensures var s := ConAgents(start, k);
      |s| == k - start && forall i :: 0 <= i < |s| ==> s[i] == (start + i, Con)
  {
    if k > start { ConAgentsIds(start, k - 1); }
  }

  /** Agents below `k`, all constructors, with the next id. */
  ghost predicate Filled(net: SparseNet, k: nat) {
    AllCon(net.agents, k) && net.nextId == k && net.ports == map[] && net.redexes == []
  }

  lemma {:induction false} ConAgentsFill(net: SparseNet, start: nat, k: nat)
    requires start <= k < U32_MAX && Filled(net, start)
    ensures Filled(Introduce(net, ConAgents(start, k)), k)
  {
    if k > start {
      ConAgentsFill(net, start, k - 1);
      var s := ConAgents(start, k);
      assert s[..|s| - 1] == ConAgents(start, k - 1);
    }
  }

  lemma {:induction false} StreamAgents(depth: nat, chunk: nat, k: nat)
    requires depth <= 30 && chunk >= 1 && k <= BatchCount(chunk, Total(depth))
    ensures Filled(Symbols(TreeStream(depth, chunk)[..k]), Cut(k, chunk, Total(depth)))
  {
    TotalBound(depth);
    hide Total, TreeStream, BatchCount, Cut;
    var s, total := TreeStream(depth, chunk), Total(depth);
    if k == 0 {
      CutStart(chunk, total);
    } else {
      StreamAgents(depth, chunk, k - 1);
      assert s[..k][..k - 1] == s[..k - 1];
      TreeStreamAt(depth, chunk, k - 1);
      ConAgentsFill(Symbols(s[..k - 1]), Cut(k - 1, chunk, total), Cut(k, chunk, total));
    }
  }

  lemma TotalBound(depth: nat)
    requires depth <= 30
    ensures Total(depth) < 0x8000_0000
  {
    Pow2Monotone(depth, 30);
    Pow2Values();
  }

  lemma StreamArrived(depth: nat, chunk: nat, k: nat, id: AgentId)
    requires depth <= 30 && chunk >= 1 && k <= BatchCount(chunk, Total(depth))
    ensures id in Arrived(TreeStream(depth, chunk)[..k]) <==> id < Cut(k, chunk, Total(depth))
  {
    hide Total, TreeStream, BatchCount, Cut;
    StreamAgents(depth, chunk, k);
    SymbolsKeys(TreeStream(depth, chunk)[..k]);
    assert id in Symbols(TreeStream(depth, chunk)[..k]).agents.Keys <==> id in Symbols(TreeStream(depth, chunk)[..k]).agents;
  }

  // ------------------------------------------------------------------ in good order

  lemma {:induction false} DirectivesTyped(depth: nat, start: nat, end: nat, k: nat)
    requires start <= k <= Total(depth)
    ensures forall d :: d in DirectivesUpTo(depth, start, end, k) ==> Typed(d)
  {
    hide Node, Total, Id, LeafName;
    if k > start { DirectivesTyped(depth, start, end, k - 1); }
  }

  lemma StreamTyped(depth: nat, chunk: nat)
    requires chunk >= 1
    ensures AllTyped(TreeStream(depth, chunk))
  {
    hide Total, TreeStream, BatchCount, Cut, Typed;
    var s, total := TreeStream(depth, chunk), Total(depth);
    forall b, i | 0 <= b < |s| && 0 <= i < |s[b].connections| ensures Typed(s[b].connections[i]) {
      TreeStreamAt(depth, chunk, b);
      DirectivesTyped(depth, Cut(b, chunk, total), Cut(b + 1, chunk, total), Cut(b + 1, chunk, total));
      assert s[b].connections[i] in s[b].connections;
    }
  }

  lemma StreamUnique(depth: nat, chunk: nat)
    requires depth <= 30 && chunk >= 1
    ensures UniqueIds(TreeStream(depth, chunk))
  {
    hide Total, TreeStream, BatchCount, Cut, TreeBatch, Arrived;
    var s, total := TreeStream(depth, chunk), Total(depth);
    forall k | 0 <= k < |s|
      ensures Ids(s[k]) !! Arrived(s[..k])
      ensures forall i, j :: 0 <= i < j < |s[k].agents| ==> s[k].agents[i].0 != s[k].agents[j].0
    {
      BatchIds(depth, chunk, k);
      forall id: AgentId ensures !(id in Ids(s[k]) && id in Arrived(s[..k])) { StreamArrived(depth, chunk, k, id); }
    }
  }

  lemma BatchIds(depth: nat, chunk: nat, k: nat)
    requires chunk >= 1 && k < BatchCount(chunk, Total(depth))
    ensures forall id: AgentId :: id in Ids(TreeStream(depth, chunk)[k]) ==> id >= Cut(k, chunk, Total(depth))
    ensures var s := TreeStream(depth, chunk)[k].agents; forall i, j :: 0 <= i < j < |s| ==> s[i].0 != s[j].0
  {
    hide Total, TreeStream, BatchCount, Cut;
    TreeStreamAt(depth, chunk, k);
    ConAgentsIds(Cut(k, chunk, Total(depth)), Cut(k + 1, chunk, Total(depth)));
  }

  /** The whole stream: its agents, its wires, and nothing said twice. */
  lemma StreamProper(depth: nat, chunk: nat)
    requires 1 <= depth <= 30 && chunk >= 1
    ensures var s := TreeStream(depth, chunk);
      Proper(s) && Filled(Symbols(s), Total(depth)) && Wires(s) == TreeWires(depth, Total(depth))
  {
    hide Total, TreeStream, BatchCount, Cut, TreeWires, Linear, AllTyped, UniqueIds, Wires, Symbols;
    var s, total := TreeStream(depth, chunk), Total(depth);
    CutEnd(|s|, chunk, total);
    assert s[..|s|] == s;
    StreamAgents(depth, chunk, |s|);
    StreamWires(depth, chunk, |s|);
    StreamTyped(depth, chunk);
    StreamUnique(depth, chunk);
    TreeWiresProper(depth, Symbols(s).agents);
  }
}
