/** The dual-tree stream: two perfect binary trees joined at their roots. */
module DualTree {
  import opened Nets
  import opened Ordering
  import opened Assembler
  import opened AssemblerWires
  import opened TreeNumbering

  function Total(depth: nat): nat {
    2 * Nodes(depth)
  }

  /** The agent of level-order node `i` in the left or the right tree. */
  function Id(depth: nat, right: bool, i: nat): (id: AgentId)
    requires i < Nodes(depth)
    ensures id < Total(depth) && (right <==> id >= Nodes(depth))
  {
    Position(depth, i) + if right then Nodes(depth) else 0
  }

  predicate IsRight(depth: nat, id: AgentId) {
    id >= Nodes(depth)
  }

  /** The level-order index of an agent within its tree. */
  function Node(depth: nat, id: AgentId): (i: nat)
    requires id < Total(depth)
    ensures i < Nodes(depth)
  {
    NodeAt(depth, if IsRight(depth, id) then id - Nodes(depth) else id)
  }

  lemma IdNode(depth: nat, right: bool, i: nat)
    requires i < Nodes(depth)
    ensures Node(depth, Id(depth, right, i)) == i
  {
    PositionBijective(depth, i);
  }

  lemma NodeId(depth: nat, id: AgentId)
    requires id < Total(depth)
    ensures Id(depth, IsRight(depth, id), Node(depth, id)) == id
  {
    PositionBijective(depth, if IsRight(depth, id) then id - Nodes(depth) else id);
  }

  /** The label of the missing child `c` of a leaf. */
  function LeafName(depth: nat, right: bool, c: nat): nat
    requires c >= Nodes(depth)
  {
    2 * Nodes(depth) + (if right then Nodes(depth) + 1 else 0) + (c - Nodes(depth))
  }

  /** The wiring of the two trees: what each port is joined to. */
  function Wiring(depth: nat, p: PortRef): PortRef {
    if p.FreePort? || p.id >= Total(depth) || p.port > 2 then DISCONNECTED
    else
      var right, i := IsRight(depth, p.id), Node(depth, p.id);
      if p.port == 0 then
        if i == 0 then AgentPort(Id(depth, !right, 0), 0)
        else AgentPort(Id(depth, right, (i - 1) / 2), if i % 2 == 1 then 1 else 2)
      else
        var c := 2 * i + p.port;
        if c < Nodes(depth) then AgentPort(Id(depth, right, c), 0) else FreePort(LeafName(depth, right, c))
  }

  // ---------------------------------------------------------------- the directives

  /** The wire to the parent is postponed when the parent is outside the batch. */
  function ParentDirective(depth: nat, e: AgentId, start: nat, end: nat): seq<Directive>
    requires e < Total(depth)
  {
    var i := Node(depth, e);
    if i == 0 then []
    else
      var q := AgentPort(Id(depth, IsRight(depth, e), (i - 1) / 2), if i % 2 == 1 then 1 else 2);
      if start <= q.id < end then [Resolved(AgentPort(e, 0), q)] else [Pending(AgentPort(e, 0), q)]
  }

  function LeafDirective(depth: nat, e: AgentId, port: nat): seq<Directive>
    requires e < Total(depth)
  {
    var c := 2 * Node(depth, e) + port;
    if c >= Nodes(depth) then [FreePortInterface(AgentPort(e, port), LeafName(depth, IsRight(depth, e), c))] else []
  }

  function RootDirective(depth: nat, e: AgentId): seq<Directive>
    requires e < Total(depth)
  {
    if e == Id(depth, false, 0) then [Pending(AgentPort(e, 0), AgentPort(Id(depth, true, 0), 0))] else []
  }

  function NodeDirectives(depth: nat, e: AgentId, start: nat, end: nat): seq<Directive>
    requires e < Total(depth)
  {
    ParentDirective(depth, e, start, end) + LeafDirective(depth, e, 1) + LeafDirective(depth, e, 2)
      + RootDirective(depth, e)
  }

  function DirectivesUpTo(depth: nat, start: nat, end: nat, k: nat): seq<Directive>
    requires start <= k <= Total(depth)
    decreases k
  {
    if k == start then [] else DirectivesUpTo(depth, start, end, k - 1) + NodeDirectives(depth, k - 1, start, end)
  }

  function ConAgents(start: nat, k: nat): seq<(AgentId, Symbol)>
    requires start <= k
  {
    if k == start then [] else ConAgents(start, k - 1) + [(k - 1, Con)]
  }

  function TreeBatch(depth: nat, start: nat, end: nat): Batch
    requires start <= end <= Total(depth)
  {
    Batch(ConAgents(start, end), DirectivesUpTo(depth, start, end, end))
  }

  /** Where batch `k` starts. */
  function Cut(k: nat, chunk: nat, total: nat): (c: nat)
    ensures c <= total
  {
    if k * chunk <= total then k * chunk else total
  }

  function BatchCount(chunk: nat, total: nat): nat
    requires chunk >= 1
  {
    (total + chunk - 1) / chunk
  }

  lemma CutNext(k: nat, chunk: nat, total: nat)
    ensures Cut(k, chunk, total) <= Cut(k + 1, chunk, total)
    ensures Cut(k + 1, chunk, total) == if Cut(k, chunk, total) + chunk <= total then Cut(k, chunk, total) + chunk else total
  {
    assert (k + 1) * chunk == k * chunk + chunk;
  }

  lemma CutStart(chunk: nat, total: nat)
    ensures Cut(0, chunk, total) == 0
  {}

  lemma TimesMonotone(j: nat, k: nat, chunk: nat)
    requires j <= k
    ensures j * chunk <= k * chunk
  {}

  lemma CutEnd(k: nat, chunk: nat, total: nat)
    requires chunk >= 1
    ensures Cut(k, chunk, total) < total <==> k < BatchCount(chunk, total)
  {
    var b := BatchCount(chunk, total);
    assert b * chunk + (total + chunk - 1) % chunk == total + chunk - 1;
    if k < b {
      TimesMonotone(k + 1, b, chunk);
      assert (k + 1) * chunk == k * chunk + chunk;
    } else {
      TimesMonotone(b, k, chunk);
    }
  }

  function TreeStream(depth: nat, chunk: nat): (s: seq<Batch>)
    requires chunk >= 1
    ensures |s| == BatchCount(chunk, Total(depth))
  {
    seq(BatchCount(chunk, Total(depth)), k requires 0 <= k =>
      CutNext(k, chunk, Total(depth));
      TreeBatch(depth, Cut(k, chunk, Total(depth)), Cut(k + 1, chunk, Total(depth))))
  }

  lemma TreeStreamAt(depth: nat, chunk: nat, k: nat)
    requires chunk >= 1 && k < BatchCount(chunk, Total(depth))
    ensures Cut(k, chunk, Total(depth)) <= Cut(k + 1, chunk, Total(depth))
    ensures TreeStream(depth, chunk)[k] == TreeBatch(depth, Cut(k, chunk, Total(depth)), Cut(k + 1, chunk, Total(depth)))
  {
    CutNext(k, chunk, Total(depth));
  }

  lemma NoTree(chunk: nat)
    requires chunk >= 1
    ensures TreeStream(0, chunk) == []
  {
    CutEnd(0, chunk, 0);
    assert Total(0) == 0;
  }

  // -------------------------------------------------------------------- the builder

  /** The inverse of the emission order, filled in place. */
  method InvertOrder(depth: nat, order: seq<nat>) returns (idMap: array<nat>)
    requires order == Emission(depth)
    ensures fresh(idMap) && idMap.Length == Nodes(depth)
    ensures forall i :: 0 <= i < Nodes(depth) ==> idMap[i] == Position(depth, i)
  {
    idMap := new nat[Nodes(depth)](_ => 0);
    for pos := 0 to |order|
      invariant forall i :: 0 <= i < Nodes(depth) && Position(depth, i) < pos ==> idMap[i] == Position(depth, i)
    {
      idMap[order[pos]] := pos;
      PositionBijective(depth, pos);
      forall i | 0 <= i < Nodes(depth) && Position(depth, i) == pos ensures i == order[pos] {
        PositionBijective(depth, i);
      }
    }
  }

  /** Both trees in emission order, each node with its level-order index. */
  method BothTrees(depth: nat, order: seq<nat>, idMap: array<nat>) returns (all: seq<(AgentId, nat)>)
    requires order == Emission(depth) && idMap.Length == Nodes(depth)
    requires forall i :: 0 <= i < Nodes(depth) ==> idMap[i] == Position(depth, i)
    ensures |all| == Total(depth)
    ensures forall e :: 0 <= e < |all| ==> all[e] == (e, Node(depth, e))
  {
    hide Position, NodeAt, Nodes;
    all := [];
    for k := 0 to |order|
      invariant |all| == k && forall e :: 0 <= e < k ==> all[e] == (e, Node(depth, e))
    {
      PositionBijective(depth, k);
      all := all + [(idMap[order[k]], order[k])];
    }
    for k := 0 to |order|
      invariant |all| == Nodes(depth) + k && forall e :: 0 <= e < |all| ==> all[e] == (e, Node(depth, e))
    {
      PositionBijective(depth, k);
      all := all + [(Nodes(depth) + idMap[order[k]], order[k])];
    }
  }

  /** The wire of one node to its parent. */
  method ParentConnection(depth: nat, all: seq<(AgentId, nat)>, idMap: array<nat>, e: nat, start: nat, end: nat)
    returns (ds: seq<Directive>)
    requires |all| == Total(depth) && start <= e < end <= |all|
    requires forall k :: 0 <= k < |all| ==> all[k] == (k, Node(depth, k))
    requires idMap.Length == Nodes(depth)
    requires forall i :: 0 <= i < Nodes(depth) ==> idMap[i] == Position(depth, i)
    ensures ds == ParentDirective(depth, e, start, end)
  {
    hide Position, NodeAt, Nodes, Node;
    ds := [];
    var (eid, lo) := all[e];
    var treeOffset := if eid >= Nodes(depth) then Nodes(depth) else 0;
    if lo > 0 {
      var parent := idMap[(lo - 1) / 2] + treeOffset;
      var port := if lo % 2 == 1 then 1 else 2;
      var inBatch := exists k :: start <= k < end && all[k].0 == parent;
      assert inBatch <==> start <= parent < end by { assert start <= parent < end ==> all[parent].0 == parent; }
      ds := if inBatch then [Resolved(AgentPort(eid, 0), AgentPort(parent, port))]
            else [Pending(AgentPort(eid, 0), AgentPort(parent, port))];
    }
  }

  /** The directives of one node, as the source appends them. */
  method NodeConnections(depth: nat, all: seq<(AgentId, nat)>, idMap: array<nat>, e: nat, start: nat, end: nat)
    returns (ds: seq<Directive>)
    requires depth >= 1 && |all| == Total(depth) && start <= e < end <= |all|
    requires forall k :: 0 <= k < |all| ==> all[k] == (k, Node(depth, k))
    requires idMap.Length == Nodes(depth)
    requires forall i :: 0 <= i < Nodes(depth) ==> idMap[i] == Position(depth, i)
    ensures ds == NodeDirectives(depth, e, start, end)
  {
    hide Position, NodeAt, Nodes, Node, ParentDirective;
    ds := ParentConnection(depth, all, idMap, e, start, end);
    RootLast(depth);
    var nodes := Nodes(depth);
    var (eid, lo) := all[e];
    var isRight := eid >= nodes;
    var nameOffset := if isRight then nodes + 1 else 0;
    if 2 * lo + 1 >= nodes {
      ds := ds + [FreePortInterface(AgentPort(eid, 1), 2 * nodes + nameOffset + (2 * lo + 1 - nodes))];
    }
    assert ds == ParentDirective(depth, e, start, end) + LeafDirective(depth, e, 1);
    if 2 * lo + 2 >= nodes {
      ds := ds + [FreePortInterface(AgentPort(eid, 2), 2 * nodes + nameOffset + (2 * lo + 2 - nodes))];
    }
    assert ds == ParentDirective(depth, e, start, end) + LeafDirective(depth, e, 1) + LeafDirective(depth, e, 2);
    if eid == idMap[0] && !isRight {
      ds := ds + [Pending(AgentPort(idMap[0], 0), AgentPort(nodes + idMap[0], 0))];
    }
  }

  method OneBatch(depth: nat, all: seq<(AgentId, nat)>, idMap: array<nat>, start: nat, end: nat) returns (b: Batch)
    requires depth >= 1 && |all| == Total(depth) && start <= end <= |all|
    requires forall k :: 0 <= k < |all| ==> all[k] == (k, Node(depth, k))
    requires idMap.Length == Nodes(depth)
    requires forall i :: 0 <= i < Nodes(depth) ==> idMap[i] == Position(depth, i)
    ensures b == TreeBatch(depth, start, end)
  {
    hide Position, NodeAt, Nodes, Node, NodeDirectives;
    var agents, connections := [], [];
    for e := start to end
      invariant agents == ConAgents(start, e)
      invariant connections == DirectivesUpTo(depth, start, end, e)
    {
      agents := agents + [(all[e].0, Con)];
      var more := NodeConnections(depth, all, idMap, e, start, end);
      connections := connections + more;
    }
    b := Batch(agents, connections);
  }

  /** All batches of the stream. A chunk size of zero would never advance. */
  method BuildDualTreeBatches(depth: nat, chunk: nat) returns (batches: seq<Batch>)
    requires chunk >= 1
    ensures batches == TreeStream(depth, chunk)
  {
    hide *;
    batches := [];
    if depth == 0 {
      NoTree(chunk);
      return;
    }
    var total := Total(depth);
    RangeDistinct(Nodes(depth));
    var order := SortBy(Key, Range(Nodes(depth)));
    SortedEmission(depth);
    var idMap := InvertOrder(depth, order);
    var all := BothTrees(depth, order, idMap);
    var globalIdx := 0;
    CutStart(chunk, total);
    while globalIdx < total
      invariant globalIdx == Cut(|batches|, chunk, total) && |batches| <= BatchCount(chunk, total)
      invariant batches == TreeStream(depth, chunk)[..|batches|]
      invariant forall i :: 0 <= i < Nodes(depth) ==> idMap[i] == Position(depth, i)
      decreases total - globalIdx
    {
      var end := if globalIdx + chunk <= total then globalIdx + chunk else total;
      CutNext(|batches|, chunk, total);
      CutEnd(|batches|, chunk, total);
      var b := OneBatch(depth, all, idMap, globalIdx, end);
      TreeStreamAt(depth, chunk, |batches|);
      batches := batches + [b];
      globalIdx := end;
    }
    CutEnd(|batches|, chunk, total);
  }
}
