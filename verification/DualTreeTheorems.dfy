/** When the dual-tree stream is accepted, and the one net it becomes. */
module DualTreeTheorems {
  import opened Nets
  import opened Assembler
  import opened AssemblerExact
  import opened AssemblerWires
  import opened AssemblerResult
  import opened TreeNumbering
  import opened DualTree
  import opened DualTreeNet

  // ------------------------------------------------------------------- arithmetic

  lemma DivBounds(x: nat, c: nat)
    requires c >= 1
    ensures (x / c) * c <= x < (x / c + 1) * c
  {
    assert x == (x / c) * c + x % c;
    assert (x / c + 1) * c == (x / c) * c + c;
  }

  lemma DivBelow(x: nat, k: nat, c: nat)
    requires c >= 1
    ensures x < k * c <==> x / c < k
  {
    DivBounds(x, c);
    if x / c < k {
      assert (x / c + 1) * c <= k * c;
    } else {
      assert k * c <= (x / c) * c;
    }
  }

  /** The chunk that holds position `x`. */
  function Chunk(x: nat, c: nat): nat
    requires c >= 1
  {
    x / c
  }

  lemma ChunkStep(x: nat, c: nat)
    requires c >= 1
    ensures Chunk(x + c, c) == Chunk(x, c) + 1
    ensures x < c ==> Chunk(x, c) == 0
  {
    DivBounds(x, c);
    DivBounds(x + c, c);
    DivBelow(x + c, x / c + 1, c);
    DivBelow(x + c, x / c + 2, c);
    assert (x / c + 2) * c == (x / c + 1) * c + c;
    assert (x / c + 1) * c == (x / c) * c + c;
    if x < c { DivBelow(x, 1, c); }
  }

  /** A distance `d` crosses between floor(d/c) and one more chunk borders. */
  lemma {:induction false} Crossings(e: nat, d: nat, c: nat)
    requires c >= 1
    ensures Chunk(d, c) <= Chunk(e + d, c) - Chunk(e, c) <= Chunk(d, c) + 1
    decreases e + d
  {
    hide Chunk;
    if e >= c {
      Crossings(e - c, d, c);
      ChunkStep(e - c, c);
      ChunkStep(e - c + d, c);
    } else if d >= c {
      Crossings(e, d - c, c);
      ChunkStep(d - c, c);
      ChunkStep(e + d - c, c);
    } else {
      ChunkStep(e, c);
      ChunkStep(d, c);
      if e + d < c { ChunkStep(e + d, c); } else { ChunkStep(e + d - c, c); }
    }
  }

  lemma ChunkMonotone(x: nat, y: nat, c: nat)
    requires c >= 1 && x <= y
    ensures Chunk(x, c) <= Chunk(y, c)
  {
    hide Chunk;
    Crossings(x, y - x, c);
  }

  /** Half a tree never crosses more chunk borders than the step from root to root. */
  lemma RootStepLongest(n: nat, e: nat, d: nat, c: nat)
    requires c >= 1 && 1 <= n && 2 * d <= n + 1
    ensures var x := Chunk(e + d, c) - Chunk(e, c); x <= 1 || x <= Chunk(2 * n - 1, c) - Chunk(n - 1, c)
  {
    hide Chunk;
    Crossings(e, d, c);
    if d > c {
      ChunkStep(d, c);
      ChunkMonotone(d + c, n, c);
      Crossings(n - 1, n, c);
      assert n - 1 + n == 2 * n - 1;
    } else if d == c {
      ChunkStep(e, c);
    } else {
      ChunkStep(d, c);
    }
  }

  // ---------------------------------------------------------------------- timing

  /** The number of chunk borders between the left root and the right root. */
  function Gap(depth: nat, chunk: nat): int
    requires chunk >= 1
  {
    if depth == 0 then 0 else
    RootLast(depth);
    Chunk(Total(depth) - 1, chunk) - Chunk(Nodes(depth) - 1, chunk)
  }

  lemma CutContains(x: nat, k: nat, chunk: nat, total: nat)
    requires chunk >= 1 && x < total
    ensures x < Cut(k, chunk, total) <==> Chunk(x, chunk) < k
  {
    DivBelow(x, k, chunk);
  }

  lemma LastBatch(chunk: nat, total: nat)
    requires chunk >= 1 && total >= 1
    ensures BatchCount(chunk, total) == Chunk(total - 1, chunk) + 1
  {
    ChunkStep(total - 1, chunk);
    assert BatchCount(chunk, total) == Chunk(total - 1 + chunk, chunk);
  }

  /** A postponed wire of the stream runs from the principal port of a node of its batch. */
  lemma {:induction false} PendingSource(depth: nat, start: nat, end: nat, k: nat, d: Directive) returns (e: AgentId)
    requires depth >= 1 && start <= k <= Total(depth) && d.Pending? && d in DirectivesUpTo(depth, start, end, k)
    ensures start <= e < k && d.source == AgentPort(e, 0) && d.target == Wiring(depth, d.source)
    ensures IsSource(depth, d.source)
  {
    hide Position, NodeAt, Nodes, Node, Id;
    if d in DirectivesUpTo(depth, start, end, k - 1) {
      e := PendingSource(depth, start, end, k - 1, d);
    } else {
      e := k - 1;
      RootLast(depth);
      IdNode(depth, false, 0);
      assert d in NodeDirectives(depth, e, start, end);
    }
  }

  /** How far ahead the target of a node's principal wire is. */
  lemma Reach(depth: nat, e: AgentId)
    requires depth >= 1 && IsSource(depth, AgentPort(e, 0))
    ensures var q := Wiring(depth, AgentPort(e, 0));
      && q.AgentPort? && e < q.id < Total(depth)
      && (2 * (q.id - e) <= Nodes(depth) + 1 || (e == Nodes(depth) - 1 && q.id == Total(depth) - 1))
  {
    hide Position, NodeAt, Nodes, Node;
    RootLast(depth);
    NodeId(depth, e);
    var i := Node(depth, e);
    if i > 0 { ParentLater(depth, i); }
  }

  lemma CrossesFew(depth: nat, chunk: nat, e: AgentId)
    requires depth >= 1 && chunk >= 1 && IsSource(depth, AgentPort(e, 0))
    ensures var q := Wiring(depth, AgentPort(e, 0));
      q.AgentPort? && (var x := Chunk(q.id, chunk) - Chunk(e, chunk); x <= 1 || x <= Gap(depth, chunk))
  {
    hide Wiring, IsSource, Nodes, Chunk;
    Reach(depth, e);
    var q := Wiring(depth, AgentPort(e, 0));
    if 2 * (q.id - e) <= Nodes(depth) + 1 {
      RootStepLongest(Nodes(depth), e, q.id - e, chunk);
      assert e + (q.id - e) == q.id;
    }
  }

  lemma BatchOf(depth: nat, chunk: nat, r: nat, e: AgentId)
    requires chunk >= 1 && r < BatchCount(chunk, Total(depth)) && e < Total(depth)
    ensures Cut(r, chunk, Total(depth)) <= e < Cut(r + 1, chunk, Total(depth)) <==> r == Chunk(e, chunk)
  {
    CutContains(e, r, chunk, Total(depth));
    CutContains(e, r + 1, chunk, Total(depth));
  }

  /** The wire from root to root is always postponed in the batch of the left root. */
  lemma RootForward(depth: nat, chunk: nat)
    requires depth >= 1 && chunk >= 1
    ensures 1 <= Nodes(depth)
    ensures Forward(TreeStream(depth, chunk), Chunk(Nodes(depth) - 1, chunk),
                    Pending(AgentPort(Nodes(depth) - 1, 0), AgentPort(Total(depth) - 1, 0)))
  {
    hide Position, NodeAt, Nodes, Node, TreeStream, BatchCount, Cut, Chunk, DirectivesUpTo;
    RootLast(depth);
    var e, total := Nodes(depth) - 1, Total(depth);
    var r := Chunk(e, chunk);
    LastBatch(chunk, total);
    ChunkMonotone(e, total - 1, chunk);
    BatchOf(depth, chunk, r, e);
    TreeStreamAt(depth, chunk, r);
    var d := Pending(AgentPort(e, 0), AgentPort(total - 1, 0));
    assert RootDirective(depth, e) == [d];
    NodeInBatch(depth, Cut(r, chunk, total), Cut(r + 1, chunk, total), Cut(r + 1, chunk, total), e, d);
  }

  lemma {:induction false} NodeInBatch(depth: nat, start: nat, end: nat, k: nat, e: AgentId, d: Directive)
    requires start <= e < k <= Total(depth) && d in RootDirective(depth, e)
    ensures d in DirectivesUpTo(depth, start, end, k)
  {
    hide RootDirective, Total, ParentDirective, LeafDirective, NodeDirectives;
    if e < k - 1 {
      NodeInBatch(depth, start, end, k - 1, e, d);
    } else {
      RootListed(depth, e, start, end, d);
    }
  }

  lemma RootListed(depth: nat, e: AgentId, start: nat, end: nat, d: Directive)
    requires e < Total(depth) && d in RootDirective(depth, e)
    ensures d in NodeDirectives(depth, e, start, end)
  {
    hide RootDirective, ParentDirective, LeafDirective;
  }

  /** The stream is on time exactly when the step from root to root is. */
  lemma TreeOnTime(depth: nat, chunk: nat, lifetime: nat)
    requires 1 <= depth <= 30 && chunk >= 1
    ensures OnTime(TreeStream(depth, chunk), lifetime) <==> lifetime == U32_MAX || Gap(depth, chunk) <= lifetime + 1
  {
    hide OnTime;
    if lifetime == U32_MAX || Gap(depth, chunk) <= lifetime + 1 {
      TreeInTime(depth, chunk, lifetime);
    }
    if OnTime(TreeStream(depth, chunk), lifetime) {
      TreeNeedsTime(depth, chunk, lifetime);
    }
  }

  lemma TreeInTime(depth: nat, chunk: nat, lifetime: nat)
    requires 1 <= depth <= 30 && chunk >= 1
    requires lifetime == U32_MAX || Gap(depth, chunk) <= lifetime + 1
    ensures OnTime(TreeStream(depth, chunk), lifetime)
  {
    hide Total, TreeStream, BatchCount, Cut, Arrived, Gap, Wiring, IsSource, Chunk, DirectivesUpTo;
    var s, total := TreeStream(depth, chunk), Total(depth);
    forall r: nat, d: Directive | Forward(s, r, d) ensures d.target.id in Arrived(s[..Due(r, lifetime, |s|)]) {
      TreeStreamAt(depth, chunk, r);
      var end := Cut(r + 1, chunk, total);
      var e := PendingSource(depth, Cut(r, chunk, total), end, end, d);
      Reach(depth, e);
      CrossesFew(depth, chunk, e);
      BatchOf(depth, chunk, r, e);
      var t := d.target.id;
      LastBatch(chunk, total);
      ChunkMonotone(t, total - 1, chunk);
      CutContains(t, Due(r, lifetime, |s|), chunk, total);
      StreamArrived(depth, chunk, Due(r, lifetime, |s|), t);
    }
  }

  lemma TreeNeedsTime(depth: nat, chunk: nat, lifetime: nat)
    requires 1 <= depth <= 30 && chunk >= 1 && OnTime(TreeStream(depth, chunk), lifetime)
    ensures lifetime == U32_MAX || Gap(depth, chunk) <= lifetime + 1
  {
    hide OnTime, TreeStream, Chunk, Forward, Nodes;
    TotalBound(depth);
    RootForward(depth, chunk);
    NeedsTime(depth, chunk, lifetime, Nodes(depth) - 1, Total(depth) - 1);
  }

  lemma NeedsTime(depth: nat, chunk: nat, lifetime: nat, e: nat, t: nat)
    requires 1 <= depth <= 30 && chunk >= 1 && OnTime(TreeStream(depth, chunk), lifetime)
    requires e < t == Total(depth) - 1 < 0x8000_0000
    requires Forward(TreeStream(depth, chunk), Chunk(e, chunk), Pending(AgentPort(e, 0), AgentPort(t, 0)))
    ensures lifetime == U32_MAX || Chunk(t, chunk) - Chunk(e, chunk) <= lifetime + 1
  {
    hide TreeStream, BatchCount, Cut, Arrived, Chunk, Total, Due;
    var s, r := TreeStream(depth, chunk), Chunk(e, chunk);
    DueBelow(r, lifetime, |s|);
    var due := Due(r, lifetime, |s|);
    var d := Pending(AgentPort(e, 0), AgentPort(t, 0));
    assert Forward(s, r, d) && d.target.id == t;
    StreamArrived(depth, chunk, due, t);
    CutContains(t, due, chunk, Total(depth));
    LastBatch(chunk, Total(depth));
    DivSmaller(t, chunk);
    DivSmaller(e, chunk);
    if lifetime != U32_MAX { DueArithmetic(r, Chunk(t, chunk), lifetime); }
  }

  lemma DueBelow(r: nat, lifetime: nat, n: nat)
    ensures Due(r, lifetime, n) <= n
  {}

  lemma {:induction false} DivSmaller(x: nat, c: nat)
    requires c >= 1
    ensures Chunk(x, c) <= x
  {
    hide Chunk;
    if x < c {
      ChunkStep(x, c);
    } else {
      DivSmaller(x - c, c);
      ChunkStep(x - c, c);
    }
  }

  lemma DueArithmetic(r: nat, last: nat, lifetime: nat)
    requires r < 0x8000_0000 && last < 0x8000_0000 && lifetime != U32_MAX
    requires last < Due(r, lifetime, last + 1)
    ensures last - r <= lifetime + 1
  {}

  // --------------------------------------------------------------------- the net

  /** The two trees joined at their roots: every agent a constructor, every port wired
      as the level-order structure says, one active pair. */
  function TreePorts(depth: nat): set<PortRef> {
    set e, k | 0 <= e < Total(depth) && 0 <= k < 3 :: AgentPort(e, k)
  }

  function Constructors(k: nat): (m: map<AgentId, Symbol>)
    ensures AllCon(m, k)
  {
    if k == 0 then map[] else Constructors(k - 1)[k - 1 := Con]
  }

  function Roots(depth: nat): (AgentId, AgentId)
    requires depth >= 1
  {
    RootLast(depth);
    (Id(depth, false, 0), Id(depth, true, 0))
  }

  function TwoTrees(depth: nat): Net
    requires depth >= 1
  {
    Net(Constructors(Total(depth)),
        map p | p in TreePorts(depth) :: Wiring(depth, p),
        Total(depth), Total(depth), [Roots(depth)], None, [], true)
  }

  lemma TreePortsExact(depth: nat, p: PortRef)
    ensures p in TreePorts(depth) <==> TreePort(depth, p)
  {
    hide Total;
    if TreePort(depth, p) { assert p == AgentPort(p.id, p.port); }
  }

  /** The port table of the stream is the wiring, on all ports and no others. */
  lemma TreeTable(depth: nat)
    requires 1 <= depth <= 30
    ensures Ports(TreeWires(depth, Total(depth))) == map p | p in TreePorts(depth) :: Wiring(depth, p)
  {
    hide Total, Wiring, TreeWires, Linear, Ports, IsSource, TreePorts, Lists;
    var ws := TreeWires(depth, Total(depth));
    TreeWiresProper(depth, Constructors(Total(depth)));
    PortsOfLinear(ws);
    TreeWiresListed(depth, Total(depth));
    forall p: PortRef
      ensures p in Ports(ws) <==> p in TreePorts(depth)
      ensures p in Ports(ws) ==> Ports(ws)[p] == Wiring(depth, p)
    {
      TreePortsExact(depth, p);
      if p in Ports(ws) { EndIsTreePort(depth, ws, p); }
      if TreePort(depth, p) { TreePortWired(depth, ws, p); }
    }
  }

  lemma EndIsTreePort(depth: nat, ws: seq<Wire>, p: PortRef)
    requires depth >= 1 && HasEnd(ws, p) && forall w :: w in ws ==> ListsBelow(depth, w, Total(depth))
    ensures TreePort(depth, p)
  {
    hide Total, Wiring;
    var w :| w in ws && p in Ends(w);
    if p == w.q { WiringSymmetric(depth, w.p); }
  }

  lemma TreePortWired(depth: nat, ws: seq<Wire>, p: PortRef)
    requires depth >= 1 && TreePort(depth, p)
    requires forall w :: w in ws <==> ListsBelow(depth, w, Total(depth))
    requires forall w :: w in ws ==> Carries(Ports(ws), w)
    ensures p in Ports(ws) && Ports(ws)[p] == Wiring(depth, p)
  {
    hide Total, Wiring, Ports;
    SourceOneSide(depth, p);
    if IsSource(depth, p) {
      assert ListsBelow(depth, Wire(p, Wiring(depth, p)), Total(depth));
      assert Carries(Ports(ws), Wire(p, Wiring(depth, p)));
    } else {
      var q := Wiring(depth, p);
      WiringSymmetric(depth, p);
      assert ListsBelow(depth, Wire(q, p), Total(depth));
      assert Carries(Ports(ws), Wire(q, p));
    }
  }

  /** The only active pair is the pair of roots. */
  lemma TreeRedexes(depth: nat, queue: seq<(AgentId, AgentId)>)
    requires depth >= 1 && multiset(queue) == multiset(Redexes(TreeWires(depth, Total(depth))))
    ensures queue == [Roots(depth)]
  {
    hide TreeWires, Redexes;
    var ws := TreeWires(depth, Total(depth));
    var (a, b) := Roots(depth);
    TreeWiresListed(depth, Total(depth));
    forall pair: (AgentId, AgentId) ensures multiset(queue)[pair] == if pair == (a, b) then 1 else 0 {
      var (x, y) := pair;
      RedexCount(ws, x, y);
      PrincipalWire(depth, x, y);
      var w := Wire(AgentPort(x, 0), AgentPort(y, 0));
      assert w in ws <==> w in multiset(ws);
      if w in ws { CountOnce(ws, w); }
    }
    assert multiset(queue) == multiset{(a, b)};
    assert |multiset(queue)| == |queue|;
    assert queue[0] in multiset(queue);
  }

  lemma PrincipalWire(depth: nat, x: AgentId, y: AgentId)
    requires depth >= 1
    ensures ListsBelow(depth, Wire(AgentPort(x, 0), AgentPort(y, 0)), Total(depth)) <==> (x, y) == Roots(depth)
  {
    hide Position, NodeAt, Nodes, Node, Id;
    RootLast(depth);
    IdNode(depth, false, 0);
    if x < Total(depth) { NodeId(depth, x); }
  }

  lemma {:induction false} NoGaps(agents: map<AgentId, Symbol>, k: nat)
    requires forall id: AgentId :: id < k ==> id in agents
    ensures Gaps(agents, k) == []
  {
    if k > 0 { NoGaps(agents, k - 1); }
  }

  lemma FilledArena(net: SparseNet, k: nat)
    requires k >= 1 && Filled(net, k)
    ensures ArenaOf(net.agents.Keys) == k && Gaps(net.agents, k) == []
    ensures net.agents == Constructors(k)
  {
    assert k - 1 in net.agents.Keys;
    NoGaps(net.agents, k);
  }

  /** For every depth from 1 to 30 and every chunk size, assembly succeeds exactly when
      the arena fits and the roots are not too many chunks apart, and then it gives
      the same net, redex queue included. */
  lemma DualTreeAssembled(depth: nat, chunk: nat, lifetime: nat)
    requires 1 <= depth <= 30 && chunk >= 1
    ensures var r := Assemble(TreeStream(depth, chunk), lifetime);
      && (r.Assembled? <==> depth <= 23 && (lifetime == U32_MAX || Gap(depth, chunk) <= lifetime + 1))
      && (r.Assembled? ==> r.net == TwoTrees(depth))
  {
    hide Assemble, TreeStream, Total, Gap, OnTime, Proper, TreeWires, Ports, Redexes, Arrived;
    var s := TreeStream(depth, chunk);
    StreamProper(depth, chunk);
    ProperTyped(s);
    AssembleExact(s, lifetime);
    TreeOnTime(depth, chunk, lifetime);
    SymbolsKeys(s);
    ArenaFits(depth);
    FilledArena(Symbols(s), Total(depth));
    if Assemble(s, lifetime).Assembled? {
      AssembledNet(s, lifetime);
      TreeTable(depth);
      TreeRedexes(depth, Assemble(s, lifetime).net.redexes);
    }
  }

  lemma ProperTyped(s: seq<Batch>)
    requires Proper(s)
    ensures AllTyped(s)
  {}

  lemma ArenaFits(depth: nat)
    requires 1 <= depth
    ensures 1 <= Total(depth)
    ensures Total(depth) <= MAX_DENSE_ARENA_SLOTS <==> depth <= 23
  {
    RootLast(depth);
    Pow2Values();
    if depth <= 23 { Pow2Monotone(depth, 23); } else { Pow2Monotone(24, depth); }
  }

  // ------------------------------------------------------- the shape of the net

  /** Two perfect binary trees: node `i` has its children `2i+1` and `2i+2` on its
      auxiliary ports, a missing child leaves a label, the roots face each other. */
  lemma TwoTreesShape(depth: nat, right: bool, i: nat, port: nat)
    requires depth >= 1 && i < Nodes(depth) && 1 <= port <= 2
    ensures var net, c := TwoTrees(depth), 2 * i + port;
      net.Target(AgentPort(Id(depth, right, i), port))
        == if c < Nodes(depth) then AgentPort(Id(depth, right, c), 0) else FreePort(LeafName(depth, right, c))
    ensures var net, (a, b) := TwoTrees(depth), Roots(depth); net.Target(AgentPort(a, 0)) == AgentPort(b, 0)
  {
    hide Position, NodeAt, Nodes, Node, Id, TreePorts;
    IdNode(depth, right, i);
    TreePortsExact(depth, AgentPort(Id(depth, right, i), port));
    var (a, b) := Roots(depth);
    RootLast(depth);
    IdNode(depth, false, 0);
    TreePortsExact(depth, AgentPort(a, 0));
  }

  /** Every port is wired, wires are symmetric, labels are distinct and above all ids. */
  lemma TwoTreesWired(depth: nat)
    requires 1 <= depth <= 30
    ensures var net := TwoTrees(depth);
      && net.WellFormed()
      && |net.ports| == 6 * (Pow2(depth) - 1)
      && (forall p :: net.IsPort(p) <==> p in net.ports)
      && (forall p :: net.IsPort(p) ==> net.Target(p) != DISCONNECTED)
      && (forall p :: net.IsPort(p) && net.Target(p).FreePort? ==>
            net.Target(p).name >= net.nextId && forall q :: net.IsPort(q) && net.Target(q) == net.Target(p) ==> q == p)
  {
    hide Total, Wiring, TreePorts, Net.WellFormed;
    var net := TwoTrees(depth);
    forall p ensures net.IsPort(p) <==> p in net.ports ensures net.IsPort(p) ==> TreePort(depth, p) {
      TreePortsExact(depth, p);
    }
    TreeCount(depth);
    assert net.ports.Keys == TreePorts(depth);
    forall p | net.IsPort(p) ensures net.Target(p) == Wiring(depth, p) {}
    forall p | net.IsPort(p) && net.Target(p).AgentPort?
      ensures net.IsPort(net.Target(p)) && net.Target(net.Target(p)) == p
    {
      WiringSymmetric(depth, p);
      TreePortsExact(depth, net.Target(p));
    }
    SymmetricWellFormed(net);
    forall p | net.IsPort(p) && net.Target(p).FreePort?
      ensures net.Target(p).name >= net.nextId && net.Target(p) != DISCONNECTED
      ensures forall q :: net.IsPort(q) && net.Target(q) == net.Target(p) ==> q == p
    {
      forall q | net.IsPort(q) && net.Target(q) == net.Target(p) ensures q == p { WiringLabels(depth, p, q); }
      WiringLabels(depth, p, p);
    }
  }

  lemma TreeCount(depth: nat)
    ensures |TreePorts(depth)| == 6 * (Pow2(depth) - 1)
  {
    GridCount(Total(depth));
    assert TreePorts(depth) == set e, k | 0 <= e < Total(depth) && 0 <= k < 3 :: AgentPort(e, k);
  }

  lemma {:induction false} GridCount(n: nat)
    ensures |set e, k | 0 <= e < n && 0 <= k < 3 :: AgentPort(e, k)| == 3 * n
  {
    if n > 0 {
      GridCount(n - 1);
      var less := set e, k | 0 <= e < n - 1 && 0 <= k < 3 :: AgentPort(e, k);
      var last := {AgentPort(n - 1, 0), AgentPort(n - 1, 1), AgentPort(n - 1, 2)};
      assert (set e, k | 0 <= e < n && 0 <= k < 3 :: AgentPort(e, k)) == less + last;
    }
  }

  // -------------------------------------------------------------- lifetime bounds

  /** Enough chunks for a whole tree is always enough. */
  lemma WholeTreeLifetime(depth: nat, chunk: nat, lifetime: nat)
    requires 1 <= depth <= 23 && chunk >= 1
    requires Chunk(Nodes(depth) + chunk - 1, chunk) <= lifetime + 1
    ensures Assemble(TreeStream(depth, chunk), lifetime) == Assembled(TwoTrees(depth))
  {
    hide Assemble, TreeStream, Chunk, TwoTrees, Nodes;
    DualTreeAssembled(depth, chunk, lifetime);
    RootLast(depth);
    var n := Nodes(depth);
    var x := n - 1;
    ChunkStep(x, chunk);
    Crossings(x, n, chunk);
    assert x + n == Total(depth) - 1;
    CeilGap(n, x, chunk);
  }

  /** Crossing a distance of `d` takes at most ceil(d/c) borders. */
  lemma {:induction false} CeilGap(d: nat, e: nat, c: nat)
    requires c >= 1
    ensures Chunk(e + d, c) - Chunk(e, c) <= Chunk(d + c - 1, c)
  {
    hide Chunk;
    if d == 0 {
    } else {
      ChunkStep(d - 1, c);
      Crossings(e + 1, d - 1, c);
      ChunkMonotone(e, e + 1, c);
      NextBorder(e, d - 1, c);
    }
  }

  lemma {:induction false} NextBorder(e: nat, k: nat, c: nat)
    requires c >= 1
    ensures Chunk(e + 1 + k, c) - Chunk(e, c) <= Chunk(k, c) + 1
  {
    hide Chunk;
    if k >= c {
      NextBorder(e, k - c, c);
      ChunkStep(k - c, c);
      ChunkStep(e + 1 + (k - c), c);
    } else {
      ChunkStep(k, c);
      ChunkStep(e, c);
      ChunkMonotone(e + 1 + k, e + c, c);
    }
  }

  /** The documented bound of ceil(2^(depth-1)/chunk) chunks is not enough: it leaves out
      the step from root to root. */
  lemma DocumentedBoundFails()
    ensures Chunk(Pow2(2) + 1 - 1, 1) == 4
    ensures !Assemble(TreeStream(3, 1), 4).Assembled?
  {
    hide Assemble, TreeStream;
    DualTreeAssembled(3, 1, 4);
    assert Nodes(3) == 7;
  }
}
